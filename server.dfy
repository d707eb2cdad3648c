/**
 * The to-do service: an in-memory, ordered collection of items behind four
 * REST routes (list, create, update, delete), written back wholesale to a
 * data file after every successful change.
 *
 * The collection is a `seq<TodoItem>` field of class `Store` that the route
 * handlers reassign; the data file is the field `file`. HTTP wiring, JSON and
 * the file system itself are outside the model.
 */
module TodoServer {
  import opened Wrappers

  const OK := 200
  const CREATED := 201
  const BAD_REQUEST := 400
  const NOT_FOUND := 404

  const DESCRIPTION_REQUIRED := "Description is required"
  const TODO_NOT_FOUND := "Todo not found"
  const TODO_DELETED := "Todo deleted"

  datatype TodoItem = TodoItem(id: int, description: string, checked: bool)

  /** The body of a PUT request: each field is either supplied or left out. */
  datatype Patch = Patch(description: Option<string>, checked: Option<bool>)

  /** A response: a status code with either the payload or an error message. */
  datatype Reply<T> = Success(status: int, value: T) | Failure(status: int, message: string)

  /** What reading the data file at start-up produced. */
  datatype ReadOutcome =
    | Parsed(items: seq<TodoItem>)  // the file held a JSON array of items
    | Missing                       // the file does not exist (ENOENT)
    | Unreadable                    // any other read or parse error

  // ---------------------------------------------------------------------------
  // Ids in array order
  // ---------------------------------------------------------------------------

  /** Each id is larger than the one before it. */
  predicate IdsIncreasing(s: seq<TodoItem>)
  {
    forall i :: 0 < i < |s| ==> s[i - 1].id < s[i].id
  }

  /** No two items share an id. */
  predicate IdsUnique(s: seq<TodoItem>)
  {
    forall i, j :: 0 <= i < j < |s| ==> s[i].id != s[j].id
  }

  /** Increasing neighbour by neighbour means increasing between any two positions. */
  lemma {:induction false} IncreasingEverywhere(s: seq<TodoItem>)
    requires IdsIncreasing(s)
    ensures forall i, j :: 0 <= i < j < |s| ==> s[i].id < s[j].id
  {
    if |s| > 1 {
      var init := s[..|s| - 1];
      assert IdsIncreasing(init) by {
        forall i | 0 < i < |init| ensures init[i - 1].id < init[i].id {
          assert init[i - 1] == s[i - 1] && init[i] == s[i];
        }
      }
      IncreasingEverywhere(init);
      forall i, j | 0 <= i < j < |s| ensures s[i].id < s[j].id {
        if j < |s| - 1 {
          assert s[i] == init[i] && s[j] == init[j];
        } else if i < j - 1 {
          assert s[i] == init[i] && s[j - 1] == init[j - 1];
        }
      }
    }
  }

  /** Strictly increasing ids are unique ids. */
  lemma {:induction false} IncreasingIsUnique(s: seq<TodoItem>)
    requires IdsIncreasing(s)
    ensures IdsUnique(s)
  {
    IncreasingEverywhere(s);
  }

  /** The largest id in a non-empty collection. */
  function MaxId(s: seq<TodoItem>): (m: int)
    requires |s| > 0
    ensures forall i :: 0 <= i < |s| ==> s[i].id <= m
    ensures exists i :: 0 <= i < |s| && s[i].id == m
  {
    if |s| == 1 then s[0].id
    else
      var m' := MaxId(s[..|s| - 1]);
      assert forall i :: 0 <= i < |s| - 1 ==> s[..|s| - 1][i] == s[i];
      if s[|s| - 1].id > m' then s[|s| - 1].id else m'
  }

  // ---------------------------------------------------------------------------
  // Id assignment
  // ---------------------------------------------------------------------------

  /**
   * The id a new item receives: the last item's id plus one, or 1 when the
   * collection is empty. With increasing ids it is larger than every id
   * present, so it is new.
   */
  function NextId(s: seq<TodoItem>): (id: int)
    ensures |s| == 0 ==> id == 1
    ensures IdsIncreasing(s) ==> forall i :: 0 <= i < |s| ==> s[i].id < id
  {
    assert IdsIncreasing(s) ==> forall i :: 0 <= i < |s| ==> s[i].id < s[|s| - 1].id + 1 by {
      if IdsIncreasing(s) {
        IncreasingEverywhere(s);
      }
    }
    if |s| > 0 then s[|s| - 1].id + 1 else 1
  }

  /** With increasing ids, "last id + 1" is "largest id + 1". */
  lemma NextIdIsMaxPlusOne(s: seq<TodoItem>)
    requires IdsIncreasing(s) && |s| > 0
    ensures NextId(s) == MaxId(s) + 1
  {
    IncreasingEverywhere(s);
  }

  /** Without increasing ids, "last id + 1" can hand out an id that is already taken. */
  lemma NextIdCanCollide()
    ensures var s := [TodoItem(2, "a", false), TodoItem(1, "b", false)];
            NextId(s) == s[0].id && !IdsIncreasing(s)
  {
  }

  /** The item a successful create appends: the description, unchecked, under a new id. */
  function NewItem(s: seq<TodoItem>, description: string): (item: TodoItem)
    ensures item.id == NextId(s) && item.description == description && !item.checked
    ensures IdsIncreasing(s) ==> forall i :: 0 <= i < |s| ==> s[i].id != item.id
  {
    TodoItem(NextId(s), description, false)
  }

  /** Appending the item a create builds keeps ids increasing, hence unique. */
  lemma CreatePreservesIncreasing(s: seq<TodoItem>, description: string)
    requires IdsIncreasing(s)
    ensures IdsIncreasing(s + [NewItem(s, description)])
    ensures IdsUnique(s + [NewItem(s, description)])
  {
    var t := s + [NewItem(s, description)];
    assert forall i :: 0 <= i < |s| ==> t[i] == s[i];
    IncreasingIsUnique(t);
  }

  /**
   * Ids are not reserved: removing the item just created and creating again
   * hands out the same id a second time.
   */
  lemma {:induction false} CreateDeleteCreateReusesId(s: seq<TodoItem>, first: string, second: string)
    ensures var x := NewItem(s, first);
            var s' := RemoveAt(s + [x], |s|);
            s' == s && NewItem(s', second).id == x.id
  {
    var x := NewItem(s, first);
    assert (s + [x])[..|s|] == s;
  }

  // ---------------------------------------------------------------------------
  // Lookup, patch and removal
  // ---------------------------------------------------------------------------

  /** The position of the first item with the given id, or -1 when there is none. */
  function IndexOf(s: seq<TodoItem>, id: int): (r: int)
    ensures -1 <= r < |s|
    ensures 0 <= r ==> s[r].id == id && forall j :: 0 <= j < r ==> s[j].id != id
    ensures r < 0 <==> forall j :: 0 <= j < |s| ==> s[j].id != id
  {
    if |s| == 0 then -1
    else if s[0].id == id then 0
    else
      var k := IndexOf(s[1..], id);
      if k < 0 then -1 else k + 1
  }

  /** Linear search for the first item carrying `id`, as the handlers do. */
  method FindIndex(s: seq<TodoItem>, id: int) returns (r: int)
    ensures r == IndexOf(s, id)
  {
    var i := 0;
    while i < |s|
      invariant 0 <= i <= |s|
      invariant forall j :: 0 <= j < i ==> s[j].id != id
    {
      if s[i].id == id {
        return i;
      }
      i := i + 1;
    }
    return -1;
  }

  /** An item with the supplied fields of a patch written over it. */
  function Patched(t: TodoItem, p: Patch): (r: TodoItem)
    ensures r.id == t.id
    ensures r.description == (if p.description.Some? then p.description.value else t.description)
    ensures r.checked == (if p.checked.Some? then p.checked.value else t.checked)
  {
    var t' := if p.description.Some? then t.(description := p.description.value) else t;
    if p.checked.Some? then t'.(checked := p.checked.value) else t'
  }

  /** Applying the same patch twice is applying it once. */
  lemma PatchIsIdempotent(t: TodoItem, p: Patch)
    ensures Patched(Patched(t, p), p) == Patched(t, p)
  {
  }

  /** A patch never changes ids, so it keeps them increasing. */
  lemma {:induction false} UpdatePreservesIncreasing(s: seq<TodoItem>, i: int, p: Patch)
    requires 0 <= i < |s| && IdsIncreasing(s)
    ensures IdsIncreasing(s[i := Patched(s[i], p)])
  {
    var t := s[i := Patched(s[i], p)];
    assert forall k :: 0 <= k < |s| ==> t[k].id == s[k].id;
  }

  /** The collection with the item at position `i` taken out (a one-element splice). */
  function RemoveAt(s: seq<TodoItem>, i: int): (r: seq<TodoItem>)
    requires 0 <= i < |s|
    ensures |r| == |s| - 1
    ensures forall k :: 0 <= k < i ==> r[k] == s[k]
    ensures forall k :: i <= k < |r| ==> r[k] == s[k + 1]
  {
    s[..i] + s[i + 1..]
  }

  /** Removing an item from an increasing collection leaves it increasing. */
  lemma {:induction false} RemovePreservesIncreasing(s: seq<TodoItem>, i: int)
    requires 0 <= i < |s| && IdsIncreasing(s)
    ensures IdsIncreasing(RemoveAt(s, i))
  {
    var r := RemoveAt(s, i);
    IncreasingEverywhere(s);
    forall k | 0 < k < |r| ensures r[k - 1].id < r[k].id {
      if k == i {
        assert r[k - 1] == s[k - 1] && r[k] == s[k + 1];
      }
    }
  }

  /** In an increasing collection, once the item with an id is removed no item carries that id. */
  lemma {:induction false} RemoveLeavesNoneWithId(s: seq<TodoItem>, id: int)
    requires IdsIncreasing(s) && 0 <= IndexOf(s, id)
    ensures IndexOf(RemoveAt(s, IndexOf(s, id)), id) == -1
  {
    var i := IndexOf(s, id);
    var r := RemoveAt(s, i);
    IncreasingIsUnique(s);
    forall k | 0 <= k < |r| ensures r[k].id != id {
      if k >= i {
        assert r[k] == s[k + 1];
      }
    }
  }

  // ---------------------------------------------------------------------------
  // The store
  // ---------------------------------------------------------------------------

  class Store {
    /** The authoritative collection, in insertion order. */
    var todos: seq<TodoItem>
    /** The content of the data file. */
    var file: ReadOutcome

    /**
     * Start-up: read the data file. A parsed file becomes the collection; a
     * missing file gives an empty collection and is created holding `[]`; any
     * other error is logged and leaves the collection empty and the file as it is.
     */
    constructor Start(onDisk: ReadOutcome)
      ensures onDisk.Parsed? ==> todos == onDisk.items && file == onDisk
      ensures onDisk.Missing? ==> todos == [] && file == Parsed([])
      ensures onDisk.Unreadable? ==> todos == [] && file == Unreadable
    {
      todos := [];
      file := onDisk;
      if onDisk.Parsed? {
        todos := onDisk.items;
      } else if onDisk.Missing? {
        todos := [];
        file := Parsed(todos);
      }
    }

    /** Overwrite the data file with the whole collection. */
    method Save()
      modifies this
      ensures todos == old(todos) && file == Parsed(todos)
    {
      file := Parsed(todos);
    }

    /** GET /todos: the whole collection, unfiltered. */
    method List() returns (r: seq<TodoItem>)
      ensures r == todos
    {
      r := todos;
    }

    /**
     * POST /todos. A missing or empty description is refused with 400 and
     * nothing changes; otherwise a new unchecked item with the next id is
     * appended, saved and returned with 201.
     */
    method Create(description: Option<string>) returns (r: Reply<TodoItem>)
      modifies this
      ensures description.None? || description.value == "" ==>
        r == Failure(BAD_REQUEST, DESCRIPTION_REQUIRED) && todos == old(todos) && file == old(file)
      ensures description.Some? && description.value != "" ==>
        r == Success(CREATED, NewItem(old(todos), description.value)) &&
        todos == old(todos) + [r.value] && file == Parsed(todos)
      ensures IdsIncreasing(old(todos)) ==> IdsIncreasing(todos) && IdsUnique(todos)
    {
      if description.None? || description.value == "" {
        if IdsIncreasing(todos) {
          IncreasingIsUnique(todos);
        }
        return Failure(BAD_REQUEST, DESCRIPTION_REQUIRED);
      }
      var item := TodoItem(if |todos| > 0 then todos[|todos| - 1].id + 1 else 1, description.value, false);
      if IdsIncreasing(todos) {
        CreatePreservesIncreasing(todos, description.value);
      }
      todos := todos + [item];
      Save();
      r := Success(CREATED, item);
    }

    /**
     * PUT /todos/:id. The first item with that id gets the supplied fields of
     * the patch, is saved and returned with 200; an unknown id gives 404 and
     * nothing changes.
     */
    method Update(id: int, patch: Patch) returns (r: Reply<TodoItem>)
      modifies this
      ensures var i := IndexOf(old(todos), id);
        if i < 0 then
          r == Failure(NOT_FOUND, TODO_NOT_FOUND) && todos == old(todos) && file == old(file)
        else
          todos == old(todos)[i := Patched(old(todos)[i], patch)] &&
          r == Success(OK, todos[i]) && file == Parsed(todos)
      ensures |todos| == |old(todos)|
      ensures forall k :: 0 <= k < |todos| ==> todos[k].id == old(todos)[k].id
      ensures IdsIncreasing(old(todos)) ==> IdsIncreasing(todos)
    {
      var i := FindIndex(todos, id);
      if 0 <= i {
        var todo := todos[i];
        if patch.description.Some? {
          todo := todo.(description := patch.description.value);
        }
        if patch.checked.Some? {
          todo := todo.(checked := patch.checked.value);
        }
        if IdsIncreasing(todos) {
          UpdatePreservesIncreasing(todos, i, patch);
        }
        todos := todos[i := todo];
        Save();
        r := Success(OK, todo);
      } else {
        r := Failure(NOT_FOUND, TODO_NOT_FOUND);
      }
    }

    /**
     * DELETE /todos/:id. The first item with that id is spliced out and the
     * rest saved, answering 200; an unknown id gives 404 and nothing changes.
     * With increasing ids, deleting the same id again is then not-found.
     */
    method Delete(id: int) returns (r: Reply<string>)
      modifies this
      ensures var i := IndexOf(old(todos), id);
        if i < 0 then
          r == Failure(NOT_FOUND, TODO_NOT_FOUND) && todos == old(todos) && file == old(file)
        else
          r == Success(OK, TODO_DELETED) && todos == RemoveAt(old(todos), i) && file == Parsed(todos)
      ensures IdsIncreasing(old(todos)) ==> IdsIncreasing(todos)
      ensures IdsIncreasing(old(todos)) ==> IndexOf(todos, id) == -1
    {
      var index := FindIndex(todos, id);
      if index != -1 {
        if IdsIncreasing(todos) {
          RemovePreservesIncreasing(todos, index);
          RemoveLeavesNoneWithId(todos, id);
        }
        todos := todos[..index] + todos[index + 1..];
        Save();
        r := Success(OK, TODO_DELETED);
      } else {
        r := Failure(NOT_FOUND, TODO_NOT_FOUND);
      }
    }
  }

  /**
   * A restart reads the data file back: after any successful change, a store
   * started from that store's file holds the same collection.
   */
  method Restart(s: Store) returns (s': Store)
    requires s.file == Parsed(s.todos)
    ensures fresh(s') && s'.todos == s.todos
  {
    s' := new Store.Start(s.file);
  }

  /**
   * A session from an empty data file: two creates get ids 1 and 2, checking
   * item 1 leaves item 2 alone, deleting 2 leaves only item 1, and deleting 2
   * again is not-found. Creating once more then hands out id 2 a second time.
   */
  method Session()
  {
    var store := new Store.Start(Missing);
    var milk := store.Create(Some("buy milk"));
    assert milk == Success(CREATED, TodoItem(1, "buy milk", false));
    var dog := store.Create(Some("walk dog"));
    assert dog == Success(CREATED, TodoItem(2, "walk dog", false));
    var none := store.Create(Some(""));
    assert none.status == BAD_REQUEST;
    var checked := store.Update(1, Patch(None, Some(true)));
    assert checked == Success(OK, TodoItem(1, "buy milk", true));
    assert store.todos == [TodoItem(1, "buy milk", true), TodoItem(2, "walk dog", false)];
    var gone := store.Delete(2);
    assert gone.status == OK;
    var all := store.List();
    assert all == [TodoItem(1, "buy milk", true)];
    var again := store.Delete(2);
    assert again == Failure(NOT_FOUND, TODO_NOT_FOUND);
    var reused := store.Create(Some("feed cat"));
    assert reused.value.id == 2;
    var back := Restart(store);
    assert back.todos == [TodoItem(1, "buy milk", true), TodoItem(2, "feed cat", false)];
  }
}
