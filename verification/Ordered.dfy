/** Sets of numbers walked in ascending order, as an ordered map is. */
module Ordered {
  predicate Ascends(ids: seq<nat>) {
    forall i, j | 0 <= i < j < |ids| :: ids[i] < ids[j]
  }

  method Smallest(ids: set<nat>) returns (least: nat)
    requires ids != {}
    ensures least in ids && forall id | id in ids :: least <= id
  {
    least :| least in ids;
    var left := ids - {least};
    while left != {}
      invariant left <= ids && least in ids && forall id | id in ids :: id in left || least <= id
    {
      var id :| id in left;
      if id < least { least := id; }
      left := left - {id};
    }
  }

  /** The ids in ascending order, as an ordered map iterates over its keys. */
  method InOrder(ids: set<nat>) returns (ordered: seq<nat>)
    ensures Ascends(ordered) && (forall id :: id in ordered <==> id in ids)
  {
    ordered := [];
    var left := ids;
    while left != {}
      invariant left <= ids && Ascends(ordered)
      invariant forall id :: id in ids <==> id in ordered || id in left
      invariant forall k, b | 0 <= k < |ordered| && b in left :: ordered[k] < b
    {
      var least := Smallest(left);
      ordered := ordered + [least];
      left := left - {least};
    }
  }
}
