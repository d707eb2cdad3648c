# To-do list: store and list operations in Dafny

This project models the core of a personal to-do list:

- **The service** (`server/server.ts`) keeps an ordered, in-memory collection of
  items `{id, description, checked}` and changes it through four routes. GET lists
  the collection. POST creates an item: a missing or empty description is refused
  with 400, otherwise the item gets the last item's id plus one (1 for an empty
  collection), `checked = false`, and is appended. PUT patches the supplied fields
  of the first item with the id. DELETE splices that item out. An unknown id is
  404. After every successful change the whole collection is written to a data
  file, which is read back at start-up.
- **The browser component** (`src/App.tsx`) holds a draft description and a list of
  `{description, checked}` objects. Its handlers append the draft as an unchecked
  item and clear the draft, flip `checked` at an index, and drop every checked item.
- **The earlier stand-alone component** (`todo.ts`) starts from two seeded items
  and has only the add handler.

Files:

- `wrappers.dfy`: module `Wrappers`, the `Option` type used for fields a request may leave out.
- `server.dfy`: module `TodoServer`. It holds the item, patch, reply and read-outcome
  datatypes and the specification functions (`NextId`, `IndexOf`, `Patched`,
  `RemoveAt`). The invariant `IdsIncreasing` and its lemmas are here too. Class
  `Store` has the collection `todos: seq<TodoItem>` and the data file `file` as
  fields that the route methods reassign. `Session` replays a typical sequence of
  requests using only the methods' contracts.
- `todo_list.dfy`: module `TodoList`. The client list as a value, with
  `Appended`, `Toggled` and `Unchecked` and their lemmas.
- `app.dfy`: module `App`. The component's state, with the items as objects of
  class `TodoObject`. The handlers are proved against the `TodoList` functions
  through `View`, which reads the objects' current fields.
- `todo_demo.dfy`: module `TodoDemo`. The earlier component's initial state and add
  handler, on values.

Main results:

- Ids that strictly increase in array order stay that way under create, update and
  delete, and increasing ids are unique ids. The store does not assume this
  invariant: a data file may hold anything. Each method promises only that it
  preserves the invariant when it held before.
- A new id is the last item's id plus one, not the largest id plus one. When ids
  increase the two are equal and the new id is fresh (`NextId`,
  `NextIdIsMaxPlusOne`). On a collection whose ids do not increase, the new id can
  equal one already present (`NextIdCanCollide`).
- Ids are not reserved. Creating an item, deleting that item and creating again
  hands out the same id twice (`CreateDeleteCreateReusesId`). `Session` shows this
  on a request sequence.
- A partial update changes only the supplied fields of the first matching item.
  Every other item, the length and the order are untouched.
- Under the invariant, deleting an id leaves no item with that id, so deleting it
  again is not-found.
- In the browser component, `toggleCheckbox` flips the flag on the item object
  that the previous state also holds. `ToggleCheckbox` returns a state equal to
  the one it was given, and the shown list is `Toggled` of the old one.

Other behaviour of the code worth knowing:

- Only create checks that a description is non-empty. An update may set any
  supplied description, including the empty one (`Patched`).
- The browser component in `src/App.tsx` changes only its local state. It makes no
  requests to the service.

## Model

| member | source | states |
|---|---|---|
| `TodoServer.IncreasingEverywhere` | server/server.ts:55-59 | ids that increase between neighbours increase between any two positions |
| `TodoServer.IncreasingIsUnique` | server/server.ts:55-59 | strictly increasing ids are pairwise distinct |
| `TodoServer.MaxId` | server/server.ts:55 | the reference "largest id": no id exceeds it and some item carries it |
| `TodoServer.NextId` | server/server.ts:55 | 1 on an empty collection; with increasing ids, larger than every id present, so new |
| `TodoServer.NextIdIsMaxPlusOne` | server/server.ts:55 | with increasing ids, last id + 1 is the largest id + 1 |
| `TodoServer.NextIdCanCollide` | server/server.ts:55 | on a collection whose ids do not increase, last id + 1 can equal an id already present |
| `TodoServer.NewItem` | server/server.ts:54-58 | the created item carries the description, is unchecked and takes the next id, which no item of an increasing collection has |
| `TodoServer.CreatePreservesIncreasing` | server/server.ts:54-59 | appending the created item keeps ids increasing and unique |
| `TodoServer.CreateDeleteCreateReusesId` | server/server.ts:55-59 | creating, deleting that item and creating again assigns the same id twice |
| `TodoServer.IndexOf` | server/server.ts:67 | the position of the first item with the id, or -1 exactly when no item has it |
| `TodoServer.FindIndex` | server/server.ts:81 | the linear search returns the first position carrying the id, or -1 |
| `TodoServer.Patched` | server/server.ts:69-70 | the id never changes; description and checked take the patch's value when supplied and keep the old one otherwise |
| `TodoServer.PatchIsIdempotent` | server/server.ts:69-70 | applying a patch twice equals applying it once |
| `TodoServer.UpdatePreservesIncreasing` | server/server.ts:66-70 | patching one item keeps ids increasing |
| `TodoServer.RemoveAt` | server/server.ts:83 | removing position i shortens by one and keeps the items before and after i in their order |
| `TodoServer.RemovePreservesIncreasing` | server/server.ts:81-83 | removing any item keeps ids increasing |
| `TodoServer.RemoveLeavesNoneWithId` | server/server.ts:81-88 | with increasing ids, after removing the item with an id none is left, so a second delete is not-found |
| `TodoServer.Store.Start` | server/server.ts:22-35 | a parsed file becomes the collection; a missing file gives an empty collection and a file holding an empty array; an unreadable one leaves the collection empty and the file untouched |
| `TodoServer.Store.Save` | server/server.ts:37-43 | the data file afterwards holds exactly the current collection |
| `TodoServer.Store.List` | server/server.ts:45-47 | returns the whole collection, unfiltered |
| `TodoServer.Store.Create` | server/server.ts:49-62 | missing or empty description: 400, collection and file unchanged; otherwise 201 with a new unchecked item whose id is last + 1 (1 when empty), appended at the end and saved; preserves increasing ids |
| `TodoServer.Store.Update` | server/server.ts:64-76 | unknown id: 404 and nothing changes; otherwise only the first matching item is patched, it is returned with 200 and saved; length, ids and order stay |
| `TodoServer.Store.Delete` | server/server.ts:79-89 | unknown id: 404 and nothing changes; otherwise that one item is spliced out and the rest saved with 200; preserves increasing ids, after which the id is gone |
| `TodoServer.Restart` | server/server.ts:22-25 | reading back the file written by the last successful change restores the same collection |
| `TodoList.Appended` | src/App.tsx:95-100 | one unchecked item with the description at the end, earlier items unchanged, length + 1 |
| `TodoList.Toggled` | src/App.tsx:104-107 | only `checked` at the index flips; length, its description and every other item stay |
| `TodoList.ToggledTwice` | src/App.tsx:104-107 | toggling the same index twice restores the list |
| `TodoList.Unchecked` | src/App.tsx:110-112 | no kept item is checked, and an item is kept exactly when it is in the list and unchecked |
| `TodoList.UncheckedOfConcat` | src/App.tsx:111 | filtering distributes over concatenation, so the kept items stay in their original relative order |
| `TodoList.UncheckedOfOne` | src/App.tsx:111 | a single item is kept exactly when it is unchecked |
| `TodoList.UncheckedKeepsUnchecked` | src/App.tsx:111 | a list with nothing checked is left unchanged |
| `TodoList.UncheckedIsIdempotent` | src/App.tsx:111 | dropping checked items a second time changes nothing |
| `App.TodoObject.constructor` | src/App.tsx:96-99 | a new item object holds the given description and flag |
| `App.Initial` | src/App.tsx:88-89 | the component starts with an empty draft and an empty list, so no object appears twice |
| `App.AddItemToDo` | src/App.tsx:95-102 | a fresh unchecked object holding the draft is appended (an empty draft too), earlier objects stay, the shown list is `Appended`, and the draft becomes empty |
| `App.ToggleCheckbox` | src/App.tsx:104-108 | flips `checked` of the object at the index in place; the new state holds the same objects as the old one, and the shown list is `Toggled` of the old one |
| `App.KeepUnchecked` | src/App.tsx:111 | keeps only objects of the given list, and keeps every object of it whose flag is false |
| `App.ViewOfCons` | src/App.tsx:111 | the shown list of a non-empty list is its first object's fields followed by the rest shown |
| `App.KeepUncheckedShowsUnchecked` | src/App.tsx:111 | the kept objects show exactly `Unchecked` of the shown list, so the unchecked items stay in order |
| `App.KeepUncheckedIsDistinct` | src/App.tsx:111 | filtering a list without repeated objects gives one without repeats |
| `App.DeleteToDoItem` | src/App.tsx:110-113 | the shown list becomes `Unchecked` of the old one; exactly the unchecked objects of the old list remain; the draft stays |
| `TodoDemo.Initial` | todo.ts:4-8 | empty draft and two items, the first checked and the second not |
| `TodoDemo.AddItemToDo` | todo.ts:10-17 | one unchecked item carrying the draft at the end, earlier items unchanged, length + 1, draft reset to empty |

## Left out

- HTTP wiring: Express, CORS, the port and start-up logging (server/server.ts:6-10, 92-99). Each route is a method, and its reply is a status code with a payload or a message.
- `parseInt` of the URL parameter (server/server.ts:65, 80). The id is an `int`; a NaN id matches no item, which is the not-found path.
- JavaScript truthiness of `description` (server/server.ts:51). A missing field or the empty string is refused. Non-string values in request bodies are not modelled, and neither is `null` as a supplied patch field.
- File I/O and JSON (server/server.ts:22-43). The data file is the field `file`, and what a read produced is a parameter of `Store.Start`. Write failures, which the source only logs, are not modelled: every save succeeds. JSON serialisation is taken to round-trip items exactly.
- TodoServer.NextId: ids are unbounded integers. In the source they are JavaScript numbers, so `id + 1` is exact only below 2^53; from there a create can repeat the last id, and the freshness promised by `NextId`, `NewItem`, `CreatePreservesIncreasing` and `Store.Create` does not hold. Fractional ids read from the data file are not modelled either.
- Interleaving of `async` handlers around `await saveTodos()`. The model runs requests one at a time.
- TodoServer.Store.Update: the source mutates the found object, which the collection shares with the reply; the model rebuilds the item value in the sequence, which gives the same collection and reply.
- App.ToggleCheckbox: requires that no object appears twice in the list. This holds for every reachable state: the list starts empty (`Initial`), and `AddItemToDo` and `DeleteToDoItem` preserve it. An out-of-range index, which the source would fail on, never comes from the rendered list.
- React `useState` mechanics. Each handler is a function or method from the old state to the new one. Array identity, which React compares, is not modelled.
- JSX, MUI components, styling and the logo (src/App.tsx:15-85, 115-136; todo.ts:19-42): presentation only.
- client/src/Clock.tsx is not part of this model: it formats the current time with locale library calls on a timer.
