/**
 * The earlier, stand-alone `ToDoList` component: a draft description and a
 * list of item values seeded with two entries, and an add handler that builds
 * a new list and clears the draft.
 */
module TodoDemo {
  import opened TodoList

  /** The component's state: the input field's text and the list. */
  datatype State = State(draft: string, todos: seq<Item>)

  /** The state on mount: an empty draft and two items, the first one checked. */
  function Initial(): (s: State)
    ensures s.draft == ""
    ensures |s.todos| == 2 && s.todos[0].checked && !s.todos[1].checked
  {
    State("", [Item("I need to pick up the kids", true), Item("I need to go out with the garbage", false)])
  }

  /**
   * `addItemToDo`: the draft becomes a new unchecked item at the end of the
   * list, earlier items stay as they were, and the draft is cleared.
   */
  function AddItemToDo(s: State): (t: State)
    ensures t.draft == ""
    ensures |t.todos| == |s.todos| + 1
    ensures t.todos[..|s.todos|] == s.todos
    ensures t.todos[|s.todos|] == Item(s.draft, false)
  {
    State("", Appended(s.todos, s.draft))
  }
}
