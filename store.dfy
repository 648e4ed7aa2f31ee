/**
 * The shopping-list store behind the four `/api/items` handlers. GET only
 * reads the document `{ items: [...] }`; a successful POST, PUT or DELETE
 * changes `items` and writes the document back, while the 400 and 404 answers
 * leave it untouched. Here the document is held in memory by a `Store` object
 * whose `items` field the handlers update in place.
 */
module ShoppingList {
  import opened Wrappers
  import opened Items
  import opened Lookup

  /** Error text of a POST without a name (status 400). */
  const NameRequired: string := "이름은 필수 항목입니다."
  /** Error text of a PUT or DELETE whose id no item carries (status 404). */
  const ItemNotFound: string := "아이템을 찾을 수 없습니다."
  /** Confirmation text of a successful DELETE. */
  const ItemDeleted: string := "아이템이 삭제되었습니다."

  /** The JSON value a handler answers with. */
  datatype Body =
    | ItemList(items: seq<Item>)
    | One(item: Item)
    | Message(message: string)
    | Error(error: string)

  datatype Response = Response(status: int, body: Body)

  /** `splice(i, 1)`: position i is gone and the rest keep their order. */
  function RemoveAt(s: seq<Item>, i: nat): (r: seq<Item>)
    requires i < |s|
    ensures |r| == |s| - 1
    ensures forall k :: 0 <= k < i ==> r[k] == s[k]
    ensures forall k :: i <= k < |r| ==> r[k] == s[k + 1]
    ensures multiset(r) + multiset{s[i]} == multiset(s)
  {
    assert s == s[..i] + [s[i]] + s[i + 1..];
    s[..i] + s[i + 1..]
  }

  /** The items after a POST with the given body fields, id and timestamp. */
  function Created(s: seq<Item>, name: Option<string>, quantity: Option<int>,
                   category: Option<string>, id: string, createdAt: string): (r: seq<Item>)
    ensures !TruthyString(name) ==> r == s
    ensures TruthyString(name) ==>
      |r| == |s| + 1 && r[..|s|] == s &&
      r[|s|] == NewItem(name.value, quantity, category, id, createdAt)
  {
    if TruthyString(name) then s + [NewItem(name.value, quantity, category, id, createdAt)]
    else s
  }

  /** The items after a PUT of body `p` on `/api/items/<id>`. */
  function Updated(s: seq<Item>, id: string, p: Patch): (r: seq<Item>)
    ensures |r| == |s|
    ensures !HasId(s, id) ==> r == s
    ensures HasId(s, id) ==>
      var i := FirstIndex(s, id);
      r[i] == Merge(s[i], p) && forall k :: 0 <= k < |s| && k != i ==> r[k] == s[k]
  {
    var i := FirstIndex(s, id);
    if i == -1 then s else s[i := Merge(s[i], p)]
  }

  /** The items after a DELETE of `/api/items/<id>`. */
  function Deleted(s: seq<Item>, id: string): (r: seq<Item>)
    ensures !HasId(s, id) ==> r == s
    ensures HasId(s, id) ==> r == RemoveAt(s, FirstIndex(s, id))
  {
    var i := FirstIndex(s, id);
    if i == -1 then s else RemoveAt(s, i)
  }

  /** Every item has a non-empty name; a POST checks this, a PUT does not. */
  predicate AllNamed(s: seq<Item>) {
    forall k :: 0 <= k < |s| ==> s[k].name != ""
  }

  class Store {
    /** The `items` array of the stored document. */
    var items: seq<Item>

    /** The document a fresh data file holds: `{ items: [] }`. */
    constructor ()
      ensures items == []
    {
      items := [];
    }

    /** GET /api/items: the stored items as they are, with status 200. */
    method List() returns (r: Response)
      ensures r == Response(200, ItemList(items))
    {
      r := Response(200, ItemList(items));
    }

    /**
     * POST /api/items. A falsy name is refused with 400 before the store is
     * touched; otherwise the new item is appended and returned with 201.
     */
    method Create(name: Option<string>, quantity: Option<int>, category: Option<string>,
                  freshId: string, now: string) returns (r: Response)
      modifies this
      ensures items == Created(old(items), name, quantity, category, freshId, now)
      ensures !TruthyString(name) ==> r == Response(400, Error(NameRequired))
      ensures TruthyString(name) ==> r == Response(201, One(items[|items| - 1]))
    {
      if !TruthyString(name) {
        return Response(400, Error(NameRequired));
      }
      var newItem := NewItem(name.value, quantity, category, freshId, now);
      items := items + [newItem];
      r := Response(201, One(newItem));
    }

    /**
     * PUT /api/items/<id>. The first item carrying the id is replaced by the
     * merge of the body over it and returned with 200; 404 when there is none.
     */
    method Update(id: string, p: Patch) returns (r: Response)
      modifies this
      ensures items == Updated(old(items), id, p)
      ensures !HasId(old(items), id) ==> r == Response(404, Error(ItemNotFound))
      ensures HasId(old(items), id) ==>
        r == Response(200, One(items[FirstIndex(old(items), id)]))
    {
      var i := FindIndex(items, id);
      if i == -1 {
        return Response(404, Error(ItemNotFound));
      }
      items := items[i := Merge(items[i], p)];
      r := Response(200, One(items[i]));
    }

    /**
     * DELETE /api/items/<id>. The first item carrying the id is spliced out
     * and a confirmation returned with 200; 404 when there is none.
     */
    method Delete(id: string) returns (r: Response)
      modifies this
      ensures items == Deleted(old(items), id)
      ensures !HasId(old(items), id) ==> r == Response(404, Error(ItemNotFound))
      ensures HasId(old(items), id) ==> r == Response(200, Message(ItemDeleted))
    {
      var i := FindIndex(items, id);
      if i == -1 {
        return Response(404, Error(ItemNotFound));
      }
      items := RemoveAt(items, i);
      r := Response(200, Message(ItemDeleted));
    }
  }

  /** Replacing one position changes the count of an id by that position alone. */
  lemma CountIdReplace(s: seq<Item>, i: nat, x: Item, id: string)
    requires i < |s|
    ensures CountId(s[i := x], id) ==
      CountId(s, id) - (if s[i].id == id then 1 else 0) + (if x.id == id then 1 else 0)
  {
    assert s == s[..i] + [s[i]] + s[i + 1..];
    assert s[i := x] == s[..i] + [x] + s[i + 1..];
    CountIdAppend(s[..i] + [s[i]], s[i + 1..], id);
    CountIdAppend(s[..i], [s[i]], id);
    CountIdAppend(s[..i] + [x], s[i + 1..], id);
    CountIdAppend(s[..i], [x], id);
  }

  /** A DELETE removes one occurrence of its id and no item of any other id. */
  lemma DeletedCount(s: seq<Item>, id: string, other: string)
    ensures CountId(Deleted(s, id), other) ==
      CountId(s, other) - (if HasId(s, id) && other == id then 1 else 0)
  {
    if HasId(s, id) {
      var i := FirstIndex(s, id);
      assert s == s[..i] + [s[i]] + s[i + 1..];
      CountIdAppend(s[..i] + [s[i]], s[i + 1..], other);
      CountIdAppend(s[..i], [s[i]], other);
      CountIdAppend(s[..i], s[i + 1..], other);
    }
  }

  /**
   * Only the first item with the id goes: one carrying the same id is still
   * found afterwards exactly when the id occurred at least twice.
   */
  lemma DeletedKeepsDuplicates(s: seq<Item>, id: string)
    ensures HasId(Deleted(s, id), id) <==> CountId(s, id) >= 2
  {
    DeletedCount(s, id, id);
    CountIdPositive(s, id);
    CountIdPositive(Deleted(s, id), id);
  }

  /**
   * After a successful POST, looking up the new id finds the new item, at
   * the end, unless an older item already carries the same id.
   */
  lemma CreatedFindable(s: seq<Item>, name: Option<string>, quantity: Option<int>,
                        category: Option<string>, id: string, createdAt: string)
    requires TruthyString(name)
    ensures FirstIndex(Created(s, name, quantity, category, id, createdAt), id) ==
      if HasId(s, id) then FirstIndex(s, id) else |s|
  {
  }

  /** A DELETE of a freshly created id undoes the POST. */
  lemma CreateThenDelete(s: seq<Item>, name: Option<string>, quantity: Option<int>,
                         category: Option<string>, id: string, createdAt: string)
    requires !HasId(s, id)
    ensures Deleted(Created(s, name, quantity, category, id, createdAt), id) == s
  {
  }

  /** Repeating a PUT whose body keeps the id leaves the store as one PUT did. */
  lemma UpdateIdempotent(s: seq<Item>, id: string, p: Patch)
    requires p.id.None? || p.id == Some(id)
    ensures Updated(Updated(s, id, p), id, p) == Updated(s, id, p)
  {
  }

  /**
   * A PUT whose body sets a different id moves the item away from its old
   * id: when that id was unique, a later lookup of it finds nothing.
   */
  lemma UpdateRenames(s: seq<Item>, id: string, p: Patch)
    requires p.id.Some? && p.id.value != id
    requires CountId(s, id) == 1
    ensures !HasId(Updated(s, id, p), id)
  {
    CountIdPositive(s, id);
    var i := FirstIndex(s, id);
    CountIdReplace(s, i, Merge(s[i], p), id);
    CountIdPositive(Updated(s, id, p), id);
  }

  /** A POST keeps every name non-empty. */
  lemma CreatedKeepsNamed(s: seq<Item>, name: Option<string>, quantity: Option<int>,
                          category: Option<string>, id: string, createdAt: string)
    requires AllNamed(s)
    ensures AllNamed(Created(s, name, quantity, category, id, createdAt))
  {
  }

  /** A DELETE keeps every name non-empty. */
  lemma DeletedKeepsNamed(s: seq<Item>, id: string)
    requires AllNamed(s)
    ensures AllNamed(Deleted(s, id))
  {
  }

  /** A PUT breaks the non-empty-name rule exactly when it hits an item and sets its name to "". */
  lemma UpdatedNamed(s: seq<Item>, id: string, p: Patch)
    requires AllNamed(s)
    ensures AllNamed(Updated(s, id, p)) <==> !(HasId(s, id) && p.name == Some(""))
  {
  }
}
