/** Trimming of the jobs' desired connections to the global capacity: the
    round-robin loop of the controller is exact water-filling. */
module Trimming {
  import opened Basics

  /** What the trim order looks at. */
  datatype Entry = Entry(wait: real, desired: int)

  /** The comparison the order is sorted by: longest wait first, then most
      connections first. */
  predicate Before(a: Entry, b: Entry)
  {
    if a.wait == b.wait then a.desired > b.desired else a.wait > b.wait
  }

  ghost predicate Permutation(order: seq<nat>, n: nat)
  {
    && |order| == n
    && (forall j :: 0 <= j < n ==> order[j] < n)
    && (forall i, j :: 0 <= i < j < n ==> order[i] != order[j])
  }

  ghost predicate Sorted(order: seq<nat>, entries: seq<Entry>)
    requires forall j :: 0 <= j < |order| ==> order[j] < |entries|
  {
    forall i, j :: 0 <= i < j < |order| ==> !Before(entries[order[j]], entries[order[i]])
  }

  /** Putting an index in where those before it may stay and the next one must not. */
  lemma Inserted(order: seq<nat>, entries: seq<Entry>, i: nat, k: nat)
    requires i < |entries| && Permutation(order, i) && Sorted(order, entries) && k <= |order|
    requires forall j :: 0 <= j < k ==> !Before(entries[i], entries[order[j]])
    requires k < |order| ==> Before(entries[i], entries[order[k]])
    ensures Permutation(order[..k] + [i] + order[k..], i + 1) && Sorted(order[..k] + [i] + order[k..], entries)
  {
    forall j | k <= j < |order|
      ensures !Before(entries[order[j]], entries[i])
    {
      assert !Before(entries[order[j]], entries[order[k]]);
    }
  }

  /** Longer waits come first, and among equal waits more connections. */
  ghost predicate FirstLongest(order: seq<nat>, entries: seq<Entry>)
    requires forall j :: 0 <= j < |order| ==> order[j] < |entries|
  {
    forall i, j :: 0 <= i < j < |order| ==>
      var a, b := entries[order[i]], entries[order[j]];
      a.wait > b.wait || (a.wait == b.wait && a.desired >= b.desired)
  }

  /** A sorted order of the entries; std::sort may pick any. */
  method SortOrder(entries: seq<Entry>) returns (order: seq<nat>)
    ensures Permutation(order, |entries|) && Sorted(order, entries) && FirstLongest(order, entries)
  {
    order := [];
    var i := 0;
    while i < |entries|
      invariant i <= |entries| && Permutation(order, i) && Sorted(order, entries)
    {
      var k := 0;
      while k < |order| && !Before(entries[i], entries[order[k]])
        invariant k <= |order|
        invariant forall j :: 0 <= j < k ==> !Before(entries[i], entries[order[j]])
      {
        k := k + 1;
      }
      Inserted(order, entries, i, k);
      order := order[..k] + [i] + order[k..];
      i := i + 1;
    }
  }

  function Below(n: nat): (s: set<nat>)
    ensures |s| == n && forall k :: k in s <==> 0 <= k < n
  {
    if n == 0 then {} else Below(n - 1) + {n - 1}
  }

  function Values(order: seq<nat>): (s: set<nat>)
    ensures forall v :: v in s <==> v in order
  {
    if order == [] then {} else Values(order[..|order| - 1]) + {order[|order| - 1]}
  }

  lemma {:induction false} ValuesSize(order: seq<nat>)
    requires forall i, j :: 0 <= i < j < |order| ==> order[i] != order[j]
    ensures |Values(order)| == |order|
  {
    if order != [] { ValuesSize(order[..|order| - 1]); }
  }

  lemma {:induction false} SubsetSize(a: set<nat>, b: set<nat>)
    requires a <= b
    ensures |a| <= |b| && (|a| == |b| ==> a == b)
  {
    if a != {} {
      var x :| x in a;
      SubsetSize(a - {x}, b - {x});
      assert b == (b - {x}) + {x};
    }
  }

  /** Every index is somewhere in a permutation. */
  lemma PositionOf(order: seq<nat>, n: nat, i: nat)
    requires Permutation(order, n) && i < n
    ensures i in order
  {
    ValuesSize(order);
    SubsetSize(Values(order), Below(n));
  }

  // ---------------------------------------------------------------------------
  // The water level.

  /** One job lowered by `r` rounds, and once more if it comes early in the
      round that ran out. */
  function Lowered(desired: int, least: int, r: nat, early: bool): int
  {
    Max(least, desired - r - if early then 1 else 0)
  }

  /** `now` is `was` lowered by r rounds, with one more for the first p in the order. */
  ghost predicate AtLevel(was: seq<int>, least: seq<int>, order: seq<nat>, r: nat, p: nat, now: seq<int>)
    requires Permutation(order, |was|) && |least| == |was|
  {
    && |now| == |was|
    && p <= |was|
    && forall j :: 0 <= j < |was| ==> now[order[j]] == Lowered(was[order[j]], least[order[j]], r, j < p)
  }

  ghost predicate AboveLeast(least: seq<int>, ds: seq<int>)
  {
    |least| == |ds| && forall i :: 0 <= i < |ds| ==> least[i] <= ds[i]
  }

  /** The outcome of trimming: the total is as close to the capacity as the
      minimums allow, and the jobs stand at one water level. */
  ghost predicate WaterFilled(was: seq<int>, least: seq<int>, order: seq<nat>, capacity: int, now: seq<int>)
    requires Permutation(order, |was|) && |least| == |was|
  {
    && Sum(now) == Min(Sum(was), Max(capacity, Sum(least)))
    && exists r: nat, p: nat :: AtLevel(was, least, order, r, p, now)
  }

  /** A later level is nowhere higher. */
  lemma LevelsFall(was: seq<int>, least: seq<int>, order: seq<nat>, r: nat, p: nat, now: seq<int>, r': nat,
                   p': nat, now': seq<int>)
    requires Permutation(order, |was|) && |least| == |was|
    requires AtLevel(was, least, order, r, p, now) && AtLevel(was, least, order, r', p', now')
    requires r < r' || (r == r' && p <= p')
    ensures forall i :: 0 <= i < |was| ==> now'[i] <= now[i]
  {
    forall i | 0 <= i < |was|
      ensures now'[i] <= now[i]
    {
      PositionOf(order, |was|, i);
      var j :| 0 <= j < |was| && order[j] == i;
      assert now[order[j]] == Lowered(was[i], least[i], r, j < p);
      assert now'[order[j]] == Lowered(was[i], least[i], r', j < p');
    }
  }

  /** The total and the water level leave one outcome for a given order. */
  lemma WaterFilledUnique(was: seq<int>, least: seq<int>, order: seq<nat>, capacity: int, now: seq<int>, now': seq<int>)
    requires Permutation(order, |was|) && |least| == |was|
    requires WaterFilled(was, least, order, capacity, now) && WaterFilled(was, least, order, capacity, now')
    ensures now == now'
  {
    var r: nat, p: nat :| AtLevel(was, least, order, r, p, now);
    var r': nat, p': nat :| AtLevel(was, least, order, r', p', now');
    if r < r' || (r == r' && p <= p') {
      LevelsFall(was, least, order, r, p, now, r', p', now');
      SumMonotone(now', now);
    } else {
      LevelsFall(was, least, order, r', p', now', r, p, now);
      SumMonotone(now, now');
    }
  }

  /** Trimming only lowers, and never below the least. */
  lemma WaterFilledBounds(was: seq<int>, least: seq<int>, order: seq<nat>, capacity: int, now: seq<int>)
    requires Permutation(order, |was|) && AboveLeast(least, was)
    requires WaterFilled(was, least, order, capacity, now)
    ensures |now| == |was|
    ensures forall i :: 0 <= i < |was| ==> least[i] <= now[i] <= was[i]
    ensures Sum(was) <= capacity ==> now == was
  {
    var r: nat, p: nat :| AtLevel(was, least, order, r, p, now);
    assert AtLevel(was, least, order, 0, 0, was);
    LevelsFall(was, least, order, 0, 0, was, r, p, now);
    forall i | 0 <= i < |was|
      ensures least[i] <= now[i]
    {
      PositionOf(order, |was|, i);
    }
    SumMonotone(now, was);
  }

  /** A job that waits longer, or waits as long and has more connections, loses at least
      as much as another one, if it can; and of two jobs that can both lose that much,
      it loses at most one more. */
  lemma LongestLoses(entries: seq<Entry>, was: seq<int>, least: seq<int>, order: seq<nat>, capacity: int,
                     now: seq<int>, i: nat, j: nat)
    requires |was| == |entries| && forall k :: 0 <= k < |was| ==> was[k] == entries[k].desired
    requires Permutation(order, |was|) && Sorted(order, entries) && AboveLeast(least, was)
    requires WaterFilled(was, least, order, capacity, now) && i < |was| && j < |was|
    requires entries[i].wait > entries[j].wait
             || (entries[i].wait == entries[j].wait && entries[i].desired > entries[j].desired)
    requires was[i] - least[i] >= was[j] - least[j]
    ensures |now| == |was| && was[i] - now[i] >= was[j] - now[j]
    ensures now[j] > least[j] ==> was[i] - now[i] <= was[j] - now[j] + 1
  {
    var r: nat, p: nat :| AtLevel(was, least, order, r, p, now);
    PositionOf(order, |was|, i);
    PositionOf(order, |was|, j);
    var a :| 0 <= a < |order| && order[a] == i;
    var b :| 0 <= b < |order| && order[b] == j;
    assert Before(entries[order[a]], entries[order[b]]);
    assert now[order[a]] == Lowered(was[i], least[i], r, a < p);
    assert now[order[b]] == Lowered(was[j], least[j], r, b < p);
  }

  method Total(ds: array<int>) returns (total: int)
    ensures total == Sum(ds[..])
  {
    total := 0;
    for i := 0 to ds.Length
      invariant total == Sum(ds[..i])
    {
      assert ds[..i + 1][..i] == ds[..i];
      total := total + ds[i];
    }
    assert ds[..ds.Length] == ds[..];
  }

  /** When the whole order is at its least, so is the sequence. */
  lemma AllLeast(order: seq<nat>, least: seq<int>, ds: seq<int>)
    requires Permutation(order, |ds|) && |least| == |ds|
    requires forall k :: 0 <= k < |ds| ==> ds[order[k]] == least[order[k]]
    ensures ds == least
  {
    forall i | 0 <= i < |ds|
      ensures ds[i] == least[i]
    {
      PositionOf(order, |ds|, i);
    }
  }

  /** One step of a round: the job at position j loses a connection unless it is
      at its least. */
  function LowerOne(ds: seq<int>, least: seq<int>, i: nat): seq<int>
    requires i < |ds| == |least|
  {
    if ds[i] > least[i] then ds[i := ds[i] - 1] else ds
  }

  lemma StepLowers(was: seq<int>, least: seq<int>, order: seq<nat>, r: nat, j: nat, now: seq<int>)
    requires Permutation(order, |was|) && |least| == |was| && j < |was|
    requires AtLevel(was, least, order, r, j, now) && AboveLeast(least, now)
    ensures AtLevel(was, least, order, r, j + 1, LowerOne(now, least, order[j]))
    ensures AboveLeast(least, LowerOne(now, least, order[j]))
    ensures Sum(LowerOne(now, least, order[j])) == Sum(now) - if now[order[j]] > least[order[j]] then 1 else 0
  {
    var i := order[j];
    SumUpdate(now, i, now[i] - 1);
  }

  /** The trimming loop over the array of desired connections, whose total exceeds
      the capacity. */
  method Trim(ds: array<int>, least: seq<int>, order: seq<nat>, total: int, capacity: int)
    requires Permutation(order, ds.Length) && AboveLeast(least, ds[..])
    requires total == Sum(ds[..]) > capacity
    modifies ds
    ensures WaterFilled(old(ds[..]), least, order, capacity, ds[..])
  {
    var n := ds.Length;
    ghost var was := ds[..];
    ghost var r: nat, p: nat := 0, 0;
    SumMonotone(least, was);
    var excess := total - capacity;
    while excess > 0
      invariant excess >= 0 && excess == Sum(ds[..]) - capacity
      invariant AtLevel(was, least, order, r, p, ds[..])
      invariant excess > 0 ==> p == 0
      invariant AboveLeast(least, ds[..])
      invariant Sum(ds[..]) <= Sum(was)
      decreases excess
    {
      var reduced := false;
      ghost var before := excess;
      p := n;
      for j := 0 to n
        invariant AboveLeast(least, ds[..])
        invariant 0 < excess <= before && excess == Sum(ds[..]) - capacity && p == n
        invariant AtLevel(was, least, order, r, j, ds[..])
        invariant reduced <==> excess < before
        invariant !reduced ==> forall k :: 0 <= k < j ==> ds[order[k]] == least[order[k]]
      {
        var i := order[j];
        ghost var prior := ds[..];
        StepLowers(was, least, order, r, j, prior);
        if ds[i] > least[i] {
          ds[i] := ds[i] - 1;
          assert ds[..] == LowerOne(prior, least, i);
          excess := excess - 1;
          reduced := true;
          if excess == 0 {
            p := j + 1;
            break;
          }
        }
      }
      if !reduced {
        AllLeast(order, least, ds[..]);
        break;
      }
      if excess > 0 {
        r, p := r + 1, 0;
      }
    }
    SumMonotone(least, ds[..]);
    assert AtLevel(was, least, order, r, p, ds[..]);
  }
}
