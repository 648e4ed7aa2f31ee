/**
 * The shopping-list item, the partial update a PUT request carries, and the
 * JavaScript truthiness rules the handlers rely on (`x || default`, `!name`).
 */
module Items {
  import opened Wrappers

  /** Category a created item gets when the request gives none ("misc"). */
  const DefaultCategory: string := "기타"
  /** Quantity a created item gets when the request gives none (or 0). */
  const DefaultQuantity: int := 1

  datatype Item = Item(
    id: string,
    name: string,
    quantity: int,
    category: string,
    completed: bool,
    createdAt: string)

  /** A PUT body: each field of an item, present or absent. */
  datatype Patch = Patch(
    id: Option<string>,
    name: Option<string>,
    quantity: Option<int>,
    category: Option<string>,
    completed: Option<bool>,
    createdAt: Option<string>)

  /** The PUT body `{}`. */
  const EmptyPatch: Patch := Patch(None, None, None, None, None, None)

  /** A string field is falsy in JavaScript when it is absent or "". */
  predicate TruthyString(o: Option<string>) {
    o.Some? && o.value != ""
  }

  /** A number field is falsy in JavaScript when it is absent or 0. */
  predicate TruthyInt(o: Option<int>) {
    o.Some? && o.value != 0
  }

  /** JavaScript `o || d` on a string field. */
  function StringOr(o: Option<string>, d: string): (r: string)
    ensures d != "" ==> r != ""
  {
    if TruthyString(o) then o.value else d
  }

  /** JavaScript `o || d` on a number field. */
  function IntOr(o: Option<int>, d: int): (r: int)
    ensures d != 0 ==> r != 0
  {
    if TruthyInt(o) then o.value else d
  }

  /** The value of a field after `{ ...old, ...updates }`. */
  function Override<T>(o: Option<T>, current: T): T {
    match o
    case Some(v) => v
    case None => current
  }

  /**
   * The item a successful POST builds: the given id, name and timestamp,
   * the quantity and category or their defaults, and not completed.
   */
  function NewItem(name: string, quantity: Option<int>, category: Option<string>,
                   id: string, createdAt: string): (it: Item)
    ensures it.id == id && it.name == name && it.createdAt == createdAt
    ensures !it.completed
    ensures TruthyInt(quantity) ==> it.quantity == quantity.value
    ensures !TruthyInt(quantity) ==> it.quantity == DefaultQuantity
    ensures TruthyString(category) ==> it.category == category.value
    ensures !TruthyString(category) ==> it.category == DefaultCategory
    // a created item never carries a falsy quantity or category
    ensures it.quantity != 0 && it.category != ""
  {
    Item(id, name, IntOr(quantity, DefaultQuantity), StringOr(category, DefaultCategory),
         false, createdAt)
  }

  /**
   * `{ ...it, ...p }`: every field present in the patch takes the patch's
   * value, every absent field keeps the item's. The id is not protected.
   */
  function Merge(it: Item, p: Patch): (r: Item)
    ensures p.id.Some? ==> r.id == p.id.value
    ensures p.id.None? ==> r.id == it.id
    ensures p.name.Some? ==> r.name == p.name.value
    ensures p.name.None? ==> r.name == it.name
    ensures p.quantity.Some? ==> r.quantity == p.quantity.value
    ensures p.quantity.None? ==> r.quantity == it.quantity
    ensures p.category.Some? ==> r.category == p.category.value
    ensures p.category.None? ==> r.category == it.category
    ensures p.completed.Some? ==> r.completed == p.completed.value
    ensures p.completed.None? ==> r.completed == it.completed
    ensures p.createdAt.Some? ==> r.createdAt == p.createdAt.value
    ensures p.createdAt.None? ==> r.createdAt == it.createdAt
  {
    Item(Override(p.id, it.id), Override(p.name, it.name), Override(p.quantity, it.quantity),
         Override(p.category, it.category), Override(p.completed, it.completed),
         Override(p.createdAt, it.createdAt))
  }

  /** The patch that sets every field to that of `it`. */
  function FullPatch(it: Item): (p: Patch)
    ensures p.id.Some? && p.name.Some? && p.quantity.Some?
    ensures p.category.Some? && p.completed.Some? && p.createdAt.Some?
  {
    Patch(Some(it.id), Some(it.name), Some(it.quantity), Some(it.category),
          Some(it.completed), Some(it.createdAt))
  }

  /** Spreading later fields over earlier ones: `{ ...p, ...q }`. */
  function Then(p: Patch, q: Patch): Patch {
    Patch(if q.id.Some? then q.id else p.id,
          if q.name.Some? then q.name else p.name,
          if q.quantity.Some? then q.quantity else p.quantity,
          if q.category.Some? then q.category else p.category,
          if q.completed.Some? then q.completed else p.completed,
          if q.createdAt.Some? then q.createdAt else p.createdAt)
  }

  /** An empty body changes nothing. */
  lemma MergeEmpty(it: Item)
    ensures Merge(it, EmptyPatch) == it
  {
  }

  /** Applying the same body twice is the same as applying it once. */
  lemma MergeIdempotent(it: Item, p: Patch)
    ensures Merge(Merge(it, p), p) == Merge(it, p)
  {
  }

  /** Two successive merges are one merge of the combined body. */
  lemma MergeThen(it: Item, p: Patch, q: Patch)
    ensures Merge(Merge(it, p), q) == Merge(it, Then(p, q))
  {
  }

  /** A body carrying every field replaces the item outright, whatever it was. */
  lemma MergeFull(it: Item, other: Item)
    ensures Merge(it, FullPatch(other)) == other
  {
  }
}
