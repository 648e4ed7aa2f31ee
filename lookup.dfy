/**
 * `items.findIndex((item) => item.id === id)`: the first position whose item
 * carries the id, or -1. Ids come from a clock, so several items may share one.
 */
module Lookup {
  import opened Items

  /** Some item of `s` carries `id`. */
  predicate HasId(s: seq<Item>, id: string) {
    exists k :: 0 <= k < |s| && s[k].id == id
  }

  /** The position `findIndex` reports: the first match, or -1 when there is none. */
  function FirstIndex(s: seq<Item>, id: string): (r: int)
    ensures -1 <= r < |s|
    ensures r == -1 <==> !HasId(s, id)
    ensures 0 <= r ==> s[r].id == id && forall k :: 0 <= k < r ==> s[k].id != id
  {
    if |s| == 0 then -1
    else if s[0].id == id then 0
    else
      var t := FirstIndex(s[1..], id);
      assert forall k :: 1 <= k < |s| ==> s[1..][k - 1] == s[k];
      if t == -1 then -1 else t + 1
  }

  /** The search loop `findIndex` runs. */
  method FindIndex(s: seq<Item>, id: string) returns (r: int)
    ensures r == FirstIndex(s, id)
  {
    var i := 0;
    while i < |s|
      invariant 0 <= i <= |s|
      invariant forall k :: 0 <= k < i ==> s[k].id != id
    {
      if s[i].id == id {
        FirstIndexAt(s, id, i);
        return i;
      }
      i := i + 1;
    }
    return -1;
  }

  /** The first match is the one position that matches with no match before it. */
  lemma FirstIndexAt(s: seq<Item>, id: string, i: nat)
    requires i < |s| && s[i].id == id
    requires forall k :: 0 <= k < i ==> s[k].id != id
    ensures FirstIndex(s, id) == i
  {
  }

  /** How many items of `s` carry `id`. */
  function CountId(s: seq<Item>, id: string): nat {
    if |s| == 0 then 0
    else (if s[0].id == id then 1 else 0) + CountId(s[1..], id)
  }

  lemma {:induction false} CountIdAppend(a: seq<Item>, b: seq<Item>, id: string)
    ensures CountId(a + b, id) == CountId(a, id) + CountId(b, id)
  {
    if |a| == 0 {
      assert a + b == b;
    } else {
      assert (a + b)[1..] == a[1..] + b;
      CountIdAppend(a[1..], b, id);
    }
  }

  /** An id is found exactly when some item carries it. */
  lemma {:induction false} CountIdPositive(s: seq<Item>, id: string)
    ensures CountId(s, id) > 0 <==> FirstIndex(s, id) >= 0
  {
    if |s| > 0 {
      CountIdPositive(s[1..], id);
      if s[0].id != id {
        if HasId(s[1..], id) {
          var k :| 0 <= k < |s| - 1 && s[1..][k].id == id;
          assert s[k + 1].id == id;
        }
        if HasId(s, id) {
          var k :| 0 <= k < |s| && s[k].id == id;
          assert s[1..][k - 1].id == id;
        }
      }
    }
  }

  /** Appending an item finds it only when no earlier item carries its id. */
  lemma FirstIndexAppend(s: seq<Item>, x: Item, id: string)
    ensures FirstIndex(s + [x], id) ==
      if FirstIndex(s, id) >= 0 then FirstIndex(s, id)
      else if x.id == id then |s|
      else -1
  {
    var t := s + [x];
    var i := FirstIndex(s, id);
    if i >= 0 {
      FirstIndexAt(t, id, i);
    } else if x.id == id {
      FirstIndexAt(t, id, |s|);
    } else {
      assert !HasId(t, id) by {
        forall k | 0 <= k < |t| ensures t[k].id != id {
          if k < |s| { assert t[k] == s[k]; }
        }
      }
    }
  }
}
