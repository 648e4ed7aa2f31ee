# Shopping-list store

A Dafny model of the shopping-list REST server: four Express handlers over
one JSON document `{ items: [...] }`. GET reads the document and answers
with its `items` array. A successful POST, PUT or DELETE loads the document,
appends to, merges into or splices `items`, and writes the document back. The
400 answer of POST comes before the document is even read, and the 404
answers of PUT and DELETE come before anything is written. Every handler
answers with a status code. With the file and HTTP layers taken away, what
is left is a small store of items, which this model holds in memory.

- `wrappers.dfy`, module `Wrappers`: the `Option` datatype, for request fields
  that may be absent.
- `items.dfy`, module `Items`: the `Item` record (`id`, `name`, `quantity`,
  `category`, `completed`, `createdAt`), the `Patch` a PUT body carries (one
  `Option` per field), JavaScript truthiness for `x || default` and `!name`,
  the item a POST builds (`NewItem`), and the shallow merge
  `{ ...item, ...updates }` (`Merge`) together with its algebra.
- `lookup.dfy`, module `Lookup`: `items.findIndex(item => item.id === id)`.
  `FirstIndex` is the specification (first match or -1), `FindIndex` the
  search loop proved equal to it, and `CountId` counts the items carrying an
  id. Ids come from the clock, so two items can share one.
- `store.dfy`, module `ShoppingList`: the `Store` class whose `items` field
  the handler methods `List`, `Create`, `Update` and `Delete` read and update
  in place. Each method returns a `Response` made of a status and a body. The
  pure functions `Created`, `Updated` and `Deleted` give the new item sequence,
  and the lemmas relate several requests to each other.

The clock values (`Date.now()` for the id, `new Date().toISOString()` for
`createdAt`) are parameters of `Store.Create`. A falsy name (absent or `""`)
is refused with 400. A falsy quantity (absent or 0) becomes 1. A falsy
category (absent or `""`) becomes `"기타"`. A PUT may overwrite every field,
the id included, and the model keeps that behaviour as written.

Two points where the code is more precise than a plain description of the
API, and where the model follows the code. First, POST refuses a name that is
present but empty, not only a missing one. Second, DELETE removes only the
first item carrying the id. Ids are timestamps, so two items can share one,
and then a later GET still shows an item with that id
(`ShoppingList.DeletedKeepsDuplicates`).

## Model

| member | source | states |
|---|---|---|
| Items.NewItem | server.js:63-70 | the created item has the given id, name and timestamp and is not completed; its quantity is the given one when that is truthy and 1 otherwise; its category is the given one when truthy and "기타" otherwise; so it never has quantity 0 or an empty category |
| Items.Merge | server.js:96 | every field present in the body takes the body's value and every absent field keeps the old one; the id is overwritten like any other field |
| Items.MergeEmpty | server.js:96 | an empty body leaves the item as it was |
| Items.MergeIdempotent | server.js:96 | merging the same body twice gives what merging it once gives |
| Items.MergeThen | server.js:96 | two merges in a row equal one merge of the combined body |
| Items.MergeFull | server.js:96 | a body giving every field replaces the item outright |
| Lookup.FirstIndex | server.js:90 | the result is -1 exactly when no item carries the id, and otherwise a position that carries it with no match before it |
| Lookup.FindIndex | server.js:113 | the search loop (also the one at line 90) returns the first matching position, or -1 when no item carries the id |
| Lookup.FirstIndexAt | server.js:90 | a matching position with no match before it is the one the lookup reports |
| Lookup.CountIdPositive | server.js:90 | the lookup finds the id exactly when at least one item carries it |
| Lookup.FirstIndexAppend | server.js:72 | after an append the lookup reports the earlier match if there is one, else the new last position if the new item carries the id, else -1 |
| ShoppingList.RemoveAt | server.js:119 | `splice(i, 1)`: one shorter, the items before i unchanged, the items after i shifted down by one in the same order, and as a multiset exactly the item at i is gone |
| ShoppingList.Created | server.js:58-72 | a falsy name leaves the items unchanged; otherwise exactly one item is appended, all earlier items stay unchanged and in order, and the new last item is the one the POST builds |
| ShoppingList.Updated | server.js:90-96 | the length never changes; an unknown id leaves the items unchanged; otherwise only the first position carrying the id changes, to the merge of the body over it |
| ShoppingList.Deleted | server.js:113-119 | an unknown id leaves the items unchanged; otherwise exactly the first position carrying the id is spliced out |
| ShoppingList.Store.constructor | server.js:24 | the initial document holds no items |
| ShoppingList.Store.List | server.js:44-45 | GET answers 200 with the stored items as they are and changes nothing |
| ShoppingList.Store.Create | server.js:56-75 | POST with a falsy name answers 400 with the name error and leaves the items unchanged; otherwise it appends the new item and answers 201 with the appended item |
| ShoppingList.Store.Update | server.js:86-99 | PUT of an unknown id answers 404 and leaves the items unchanged; otherwise it merges the body into the first match and answers 200 with the merged item |
| ShoppingList.Store.Delete | server.js:110-122 | DELETE of an unknown id answers 404 and leaves the items unchanged; otherwise it splices out the first match and answers 200 with the confirmation message |
| ShoppingList.DeletedCount | server.js:113-119 | a DELETE lowers the count of its id by one when found and leaves the count of every other id as it was |
| ShoppingList.DeletedKeepsDuplicates | server.js:113-119 | after a DELETE an item with the same id is still found exactly when the id occurred at least twice, so later duplicates are kept |
| ShoppingList.CreatedFindable | server.js:64-72 | after a POST the lookup of the new id finds the new last item, unless an older item already carries that id, which then shadows it |
| ShoppingList.CreateThenDelete | server.js:72-119 | a DELETE of an id no item carried undoes the POST that used it |
| ShoppingList.UpdateIdempotent | server.js:90-96 | repeating a PUT whose body keeps the id gives the same items as one PUT |
| ShoppingList.UpdateRenames | server.js:96 | a PUT whose body sets another id on the only item with the old id leaves no item findable under the old id |
| ShoppingList.CreatedKeepsNamed | server.js:58-72 | if every item has a non-empty name, it still holds after a POST |
| ShoppingList.DeletedKeepsNamed | server.js:119 | if every item has a non-empty name, it still holds after a DELETE |
| ShoppingList.UpdatedNamed | server.js:96 | with every name non-empty beforehand, a PUT keeps that exactly unless it hits an item and sets its name to "" |

## Left out

- Express setup, CORS, body parsing and `app.listen` (server.js:7-19, 131-133): HTTP plumbing with no logic of the store.
- Reading and writing the JSON file and `initDataFile`'s existence test (server.js:22-39): the document is held in memory, and writing it back is a foreign call. `Store.constructor` gives the document a fresh file holds.
- The 500 answers of the `catch` blocks: they fire only on file-system or parse failures, and those are outside the model.
- `Date.now()` and `new Date().toISOString()`: the id and timestamp are caller-supplied parameters of `Store.Create`, so their values and clock monotonicity are not modelled.
- Concurrent requests and lost updates: the server does not coordinate them, and the model runs one request at a time.
- JSON values of other types: `name` and `category` are strings or absent, `quantity` an integer or absent, and a PUT body carries only the six item fields. A body field of another type (a number as `name`, `null`, `false`, a fractional or NaN quantity) and extra keys that the spread would add to the item are not modelled.
- Store.Update: an item whose id a PUT changed to a non-string value would never again match `===` against the string path segment; since ids are strings here, that case is not captured.
