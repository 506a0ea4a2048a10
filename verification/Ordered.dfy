/** Strictly increasing sequences of names, numbered in their sort order. */
module Ordered {
  predicate Ascending(ids: seq<nat>) {
    forall i, j :: 0 <= i < j < |ids| ==> ids[i] < ids[j]
  }

  function Include(id: nat, ids: seq<nat>): seq<nat> {
    if ids == [] || id < ids[0] then [id] + ids
    else if id == ids[0] then ids
    else [ids[0]] + Include(id, ids[1..])
  }

  /** Sorted, without duplicates. */
  function Normalize(ids: seq<nat>): seq<nat> {
    if ids == [] then [] else Include(ids[0], Normalize(ids[1..]))
  }

  lemma {:induction false} IncludeSorts(id: nat, ids: seq<nat>)
    requires Ascending(ids)
    ensures Ascending(Include(id, ids))
    ensures forall x :: x in Include(id, ids) <==> x == id || x in ids
  {
    if ids != [] && ids[0] < id {
      IncludeSorts(id, ids[1..]);
      assert ids == [ids[0]] + ids[1..];
      assert forall x :: x in ids[1..] ==> ids[0] < x;
    }
  }

  /** Normalizing sorts, drops duplicates and keeps exactly the members. */
  lemma {:induction false} NormalizeSorts(ids: seq<nat>)
    ensures Ascending(Normalize(ids))
    ensures forall x :: x in Normalize(ids) <==> x in ids
  {
    if ids != [] {
      NormalizeSorts(ids[1..]);
      IncludeSorts(ids[0], Normalize(ids[1..]));
      assert ids == [ids[0]] + ids[1..];
    }
  }

  /** Two requests for the same members are the same membership. */
  lemma {:induction false} AscendingUnique(a: seq<nat>, b: seq<nat>)
    requires Ascending(a) && Ascending(b) && (forall x :: x in a <==> x in b)
    ensures a == b
  {
    if a == [] {
      assert forall i :: 0 <= i < |b| ==> b[i] in a;
    } else {
      assert a[0] in a && a[0] in b;
      assert b[0] in b && b[0] in a;
      assert a[0] == b[0];
      forall x
        ensures x in a[1..] <==> x in b[1..]
      {
        assert a == [a[0]] + a[1..] && b == [b[0]] + b[1..];
        if x in a[1..] {
          assert a[0] < x && x in a && x in b;
        }
        if x in b[1..] {
          assert b[0] < x && x in b && x in a;
        }
      }
      AscendingUnique(a[1..], b[1..]);
      assert a == [a[0]] + a[1..] && b == [b[0]] + b[1..];
    }
  }
}
