/** Keeping the elements of a list that satisfy a predicate, as the append loops of the command line do. */
module Filtering {
  function Filter<T>(entries: seq<T>, p: T -> bool): seq<T> {
    if entries == [] then []
    else
      var last := entries[|entries| - 1];
      Filter(entries[..|entries| - 1], p) + if p(last) then [last] else []
  }

  /** The positions of the matching entries, ascending. */
  function Positions<T>(entries: seq<T>, p: T -> bool): seq<nat> {
    if entries == [] then []
    else
      var n := |entries| - 1;
      Positions(entries[..n], p) + if p(entries[n]) then [n] else []
  }

  lemma {:induction false} PositionsAscend<T>(entries: seq<T>, p: T -> bool)
    ensures forall k | 0 <= k < |Positions(entries, p)| ::
              Positions(entries, p)[k] < |entries| && p(entries[Positions(entries, p)[k]])
    ensures forall k, l | 0 <= k < l < |Positions(entries, p)| :: Positions(entries, p)[k] < Positions(entries, p)[l]
  {
    if entries != [] {
      PositionsAscend(entries[..|entries| - 1], p);
    }
  }

  lemma {:induction false} PositionIsListed<T>(entries: seq<T>, p: T -> bool, i: nat)
    requires i < |entries| && p(entries[i])
    ensures i in Positions(entries, p)
  {
    var n := |entries| - 1;
    if i < n {
      PositionIsListed(entries[..n], p, i);
    } else {
      assert Positions(entries, p) == Positions(entries[..n], p) + [n];
    }
  }

  lemma {:induction false} FilterIsAtPositions<T>(entries: seq<T>, p: T -> bool)
    ensures |Filter(entries, p)| == |Positions(entries, p)|
    ensures forall k | 0 <= k < |Filter(entries, p)| ::
              Positions(entries, p)[k] < |entries| && Filter(entries, p)[k] == entries[Positions(entries, p)[k]]
  {
    if entries != [] {
      FilterIsAtPositions(entries[..|entries| - 1], p);
    }
  }

  /** Filtering keeps exactly the matching entries, in order. */
  lemma {:induction false} FilterIsExact<T>(entries: seq<T>, p: T -> bool)
    ensures var at := Positions(entries, p);
            && |Filter(entries, p)| == |at|
            && (forall k | 0 <= k < |at| ::
                  at[k] < |entries| && p(entries[at[k]]) && Filter(entries, p)[k] == entries[at[k]])
            && (forall k, l | 0 <= k < l < |at| :: at[k] < at[l])
            && (forall i: nat | i < |entries| && p(entries[i]) :: i in at)
  {
    PositionsAscend(entries, p);
    FilterIsAtPositions(entries, p);
    forall i: nat | i < |entries| && p(entries[i])
      ensures i in Positions(entries, p)
    {
      PositionIsListed(entries, p, i);
    }
  }

  /** Filtering keeps a matching entry as often as it occurs. */
  lemma {:induction false} FilterKeepsMultiplicity<T>(entries: seq<T>, p: T -> bool, x: T)
    ensures multiset(Filter(entries, p))[x] == if p(x) then multiset(entries)[x] else 0
  {
    if entries != [] {
      var n := |entries| - 1;
      assert entries == entries[..n] + [entries[n]];
      FilterKeepsMultiplicity(entries[..n], p, x);
    }
  }
}
