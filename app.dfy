/**
 * The `ToDoList` component of the browser client: a draft description and a
 * list of item objects, and the three handlers that produce the next state.
 *
 * Items are objects because the toggle handler writes to one in place: it
 * copies the array, but the copy holds the same item objects as the previous
 * state, so the previous state sees the flip as well.
 */
module App {
  import opened TodoList

  /** One `{description, checked}` object of the list. */
  class TodoObject {
    var description: string
    var checked: bool

    constructor (description: string, checked: bool)
      ensures this.description == description && this.checked == checked
    {
      this.description := description;
      this.checked := checked;
    }
  }

  /** The component's state: the input field's text and the list. */
  datatype State = State(draft: string, todos: seq<TodoObject>)

  /** The state on mount: an empty draft and an empty list. */
  function Initial(): (s: State)
    ensures s.draft == "" && s.todos == [] && Distinct(s.todos)
  {
    State("", [])
  }

  /** What the list shows: the current fields of each object, in order. */
  function View(todos: seq<TodoObject>): (items: seq<Item>)
    reads todos
  {
    seq(|todos|, k reads todos requires 0 <= k < |todos| => Item(todos[k].description, todos[k].checked))
  }

  /** No object appears twice in the list; every reachable state has this. */
  predicate Distinct(todos: seq<TodoObject>)
  {
    forall i, j :: 0 <= i < j < |todos| ==> todos[i] != todos[j]
  }

  /**
   * `addItemToDo`: a new object holding the draft, unchecked, goes at the end
   * of a new array, and the draft is cleared. An empty draft is added too.
   */
  method AddItemToDo(s: State) returns (t: State)
    ensures t.draft == ""
    ensures |t.todos| == |s.todos| + 1 && t.todos[..|s.todos|] == s.todos
    ensures fresh(t.todos[|s.todos|])
    ensures View(t.todos) == Appended(View(s.todos), s.draft)
    ensures Distinct(s.todos) ==> Distinct(t.todos)
  {
    var newTodo := new TodoObject(s.draft, false);
    t := State("", s.todos + [newTodo]);
    assert t.todos[..|s.todos|] == s.todos;
  }

  /**
   * `toggleCheckbox`: the object at `index` has its `checked` flipped in place.
   * The returned list holds the very same objects as the previous one, so the
   * flip shows through the previous state too; nothing else changes.
   */
  method ToggleCheckbox(s: State, index: int) returns (t: State)
    requires 0 <= index < |s.todos|
    requires Distinct(s.todos)
    modifies s.todos[index]
    ensures t == s
    ensures View(t.todos) == Toggled(old(View(s.todos)), index)
  {
    var newTodos := s.todos;
    newTodos[index].checked := !newTodos[index].checked;
    t := State(s.draft, newTodos);
    forall k | 0 <= k < |s.todos| && k != index
      ensures s.todos[k].description == old(s.todos[k].description)
      ensures s.todos[k].checked == old(s.todos[k].checked)
    {
      assert s.todos[k] != s.todos[index];
    }
  }

  /** The objects whose `checked` is false, in their original order. */
  function KeepUnchecked(todos: seq<TodoObject>): (r: seq<TodoObject>)
    reads todos
    ensures forall o :: o in r ==> o in todos
    ensures forall o :: o in todos && !o.checked ==> o in r
  {
    if |todos| == 0 then []
    else if todos[0].checked then KeepUnchecked(todos[1..])
    else [todos[0]] + KeepUnchecked(todos[1..])
  }

  /** The shown list of a non-empty list is its first item followed by the rest shown. */
  lemma ViewOfCons(todos: seq<TodoObject>)
    requires |todos| > 0
    ensures View(todos) == [Item(todos[0].description, todos[0].checked)] + View(todos[1..])
  {
    assert View(todos)[1..] == View(todos[1..]);
  }

  /** What the kept objects show is the shown list with its checked items dropped. */
  lemma {:induction false} KeepUncheckedShowsUnchecked(todos: seq<TodoObject>)
    ensures View(KeepUnchecked(todos)) == Unchecked(View(todos))
  {
    if |todos| > 0 {
      var rest := KeepUnchecked(todos[1..]);
      KeepUncheckedShowsUnchecked(todos[1..]);
      ViewOfCons(todos);
      var shown := View(todos);
      assert shown[1..] == View(todos[1..]);
      if !todos[0].checked {
        ViewOfCons([todos[0]] + rest);
        assert ([todos[0]] + rest)[1..] == rest;
      }
    }
  }

  /** Keeping some of the objects of a list without repeats gives a list without repeats. */
  lemma {:induction false} KeepUncheckedIsDistinct(todos: seq<TodoObject>)
    ensures Distinct(todos) ==> Distinct(KeepUnchecked(todos))
  {
    if |todos| > 0 && Distinct(todos) {
      KeepUncheckedIsDistinct(todos[1..]);
      assert todos[0] !in todos[1..];
    }
  }

  /** `deleteToDoItem`: the list becomes a new array of the unchecked objects; the draft stays. */
  function DeleteToDoItem(s: State): (t: State)
    reads s.todos
    ensures t.draft == s.draft
    ensures View(t.todos) == Unchecked(View(s.todos))
    ensures forall o :: o in t.todos ==> o in s.todos
    ensures forall o :: o in s.todos && !o.checked ==> o in t.todos
    ensures Distinct(s.todos) ==> Distinct(t.todos)
  {
    KeepUncheckedShowsUnchecked(s.todos);
    KeepUncheckedIsDistinct(s.todos);
    State(s.draft, KeepUnchecked(s.todos))
  }
}
