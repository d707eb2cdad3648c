/**
 * The client's to-do list as a value: a sequence of `{description, checked}`
 * items (no ids on the client), with the three transformations the list
 * handlers perform on it.
 */
module TodoList {

  datatype Item = Item(description: string, checked: bool)

  /** The list with a new unchecked item at the end; an empty description is accepted. */
  function Appended(todos: seq<Item>, description: string): (r: seq<Item>)
    ensures |r| == |todos| + 1
    ensures r[..|todos|] == todos
    ensures r[|todos|] == Item(description, false)
  {
    todos + [Item(description, false)]
  }

  /** The list with the `checked` flag of the item at `index` flipped. */
  function Toggled(todos: seq<Item>, index: int): (r: seq<Item>)
    requires 0 <= index < |todos|
    ensures |r| == |todos|
    ensures r[index].description == todos[index].description
    ensures r[index].checked == !todos[index].checked
    ensures forall k :: 0 <= k < |todos| && k != index ==> r[k] == todos[k]
  {
    todos[index := todos[index].(checked := !todos[index].checked)]
  }

  /** Flipping the same item twice gives back the list it started from. */
  lemma ToggledTwice(todos: seq<Item>, index: int)
    requires 0 <= index < |todos|
    ensures Toggled(Toggled(todos, index), index) == todos
  {
    var once := Toggled(todos, index);
    var twice := Toggled(once, index);
    assert forall k :: 0 <= k < |todos| ==> twice[k] == todos[k];
  }

  /** The items that are not checked, in their original order. */
  function Unchecked(todos: seq<Item>): (r: seq<Item>)
    ensures |r| <= |todos|
    ensures forall k :: 0 <= k < |r| ==> !r[k].checked
    ensures forall x :: x in r <==> x in todos && !x.checked
  {
    if |todos| == 0 then []
    else if todos[0].checked then Unchecked(todos[1..])
    else [todos[0]] + Unchecked(todos[1..])
  }

  /**
   * Filtering works piece by piece: the unchecked items of a concatenation are
   * those of the first part followed by those of the second. Together with the
   * one-item case this fixes both which items are kept and their order.
   */
  lemma {:induction false} UncheckedOfConcat(a: seq<Item>, b: seq<Item>)
    ensures Unchecked(a + b) == Unchecked(a) + Unchecked(b)
  {
    if |a| > 0 {
      assert (a + b)[1..] == a[1..] + b;
      UncheckedOfConcat(a[1..], b);
    } else {
      assert a + b == b;
    }
  }

  /** A one-item list keeps its item exactly when it is unchecked. */
  lemma UncheckedOfOne(x: Item)
    ensures Unchecked([x]) == if x.checked then [] else [x]
  {
  }

  /** A list with nothing checked is left as it is. */
  lemma {:induction false} UncheckedKeepsUnchecked(todos: seq<Item>)
    requires forall k :: 0 <= k < |todos| ==> !todos[k].checked
    ensures Unchecked(todos) == todos
  {
    if |todos| > 0 {
      UncheckedKeepsUnchecked(todos[1..]);
      assert [todos[0]] + todos[1..] == todos;
    }
  }

  /** Dropping the checked items a second time changes nothing. */
  lemma UncheckedIsIdempotent(todos: seq<Item>)
    ensures Unchecked(Unchecked(todos)) == Unchecked(todos)
  {
    UncheckedKeepsUnchecked(Unchecked(todos));
  }
}
