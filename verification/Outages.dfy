/**
 The availability metrics told from the events alone: which transitions are counted and in what
 order, which outages they form, and the median of their lengths.
 */
module Outages {
  import opened Containers
  import opened Availability

  // ----- the transitions of the window -----

  /** Positions of the events of a kind with a time in the window. */
  function PositionsOf(events: seq<Event>, kind: Kind, from: int): set<nat> {
    set i: nat | i < |events| && InWindow(events[i], kind, from)
  }

  predicate InWindow(e: Event, kind: Kind, from: int) {
    e.kind == kind && e.at.Some? && e.at.value >= from
  }

  lemma OneMorePosition(events: seq<Event>, e: Event, kind: Kind, from: int)
    ensures |PositionsOf(events + [e], kind, from)| == |PositionsOf(events, kind, from)|
              + if InWindow(e, kind, from) then 1 else 0
  {
    var all, before := events + [e], PositionsOf(events, kind, from);
    assert forall i: nat :: i < |events| ==> all[i] == events[i];
    if InWindow(e, kind, from) {
      assert PositionsOf(all, kind, from) == before + {|events|};
    } else {
      assert PositionsOf(all, kind, from) == before;
    }
  }

  lemma {:induction false} CollectedCounts(events: seq<Event>, from: int)
    ensures CountDown(Collect(events, from), true) == |PositionsOf(events, Unavailable, from)|
    ensures CountDown(Collect(events, from), false) == |PositionsOf(events, Recovered, from)|
  {
    if events == [] {
      assert PositionsOf(events, Unavailable, from) == {} && PositionsOf(events, Recovered, from) == {};
    } else {
      var before, e := events[..|events| - 1], events[|events| - 1];
      CollectedCounts(before, from);
      assert events == before + [e];
      OneMorePosition(before, e, Unavailable, from);
      OneMorePosition(before, e, Recovered, from);
      var c := Collect(before, from);
      assert c + [] == c;
      assert IsTransition(e, from) ==> (c + [AsTransition(e)])[..|c|] == c;
    }
  }

  lemma CountAppend(ts: seq<Transition>, t: Transition, down: bool)
    ensures CountDown(ts + [t], down) == CountDown(ts, down) + if t.down == down then 1 else 0
  {
    assert (ts + [t])[..|ts|] == ts;
  }

  lemma {:induction false} InsertKeepsDown(ts: seq<Transition>, t: Transition, down: bool)
    ensures CountDown(Insert(ts, t, Time), down) == CountDown(ts, down) + if t.down == down then 1 else 0
    decreases |ts|
  {
    if ts == [] || Time(ts[|ts| - 1]) <= Time(t) {
      CountAppend(ts, t, down);
    } else {
      InsertKeepsDown(ts[..|ts| - 1], t, down);
      CountAppend(Insert(ts[..|ts| - 1], t, Time), ts[|ts| - 1], down);
    }
  }

  lemma {:induction false} SortKeepsDown(ts: seq<Transition>, down: bool)
    ensures CountDown(Sort(ts), down) == CountDown(ts, down)
    decreases |ts|
  {
    if ts != [] {
      SortKeepsDown(ts[..|ts| - 1], down);
      InsertKeepsDown(Sort(ts[..|ts| - 1]), ts[|ts| - 1], down);
    }
  }

  /** The two transition counts are the numbers of events of each kind in the window. */
  lemma {:induction false} CountsAreEvents(events: seq<Event>, available: Option<bool>, now: int, window: int)
    ensures var m := MetricsOf(events, available, now, window);
            && m.unavailable == |PositionsOf(events, Unavailable, now - window)|
            && m.recovered == |PositionsOf(events, Recovered, now - window)|
  {
    CollectedCounts(events, now - window);
    SortKeepsDown(Collect(events, now - window), true);
    SortKeepsDown(Collect(events, now - window), false);
  }

  // ----- the order of simultaneous transitions -----

  /** The elements with one key, in order. */
  function WithKey<T>(xs: seq<T>, key: T -> int, k: int): seq<T> {
    if xs == [] then [] else
    WithKey(xs[..|xs| - 1], key, k) + if key(xs[|xs| - 1]) == k then [xs[|xs| - 1]] else []
  }

  lemma WithKeyAppend<T>(xs: seq<T>, x: T, key: T -> int, k: int)
    ensures WithKey(xs + [x], key, k) == WithKey(xs, key, k) + if key(x) == k then [x] else []
  {
    assert (xs + [x])[..|xs|] == xs;
  }

  lemma {:induction false} InsertIsStable<T>(xs: seq<T>, x: T, key: T -> int, k: int)
    ensures WithKey(Insert(xs, x, key), key, k) == WithKey(xs, key, k) + if key(x) == k then [x] else []
    decreases |xs|
  {
    if xs == [] || key(xs[|xs| - 1]) <= key(x) {
      WithKeyAppend(xs, x, key, k);
    } else {
      var before, last := xs[..|xs| - 1], xs[|xs| - 1];
      InsertIsStable(before, x, key, k);
      WithKeyAppend(Insert(before, x, key), last, key, k);
      assert WithKey(before, key, k) + [] == WithKey(before, key, k);
    }
  }

  /** Sorting keeps the order of elements with equal keys. */
  lemma {:induction false} SortIsStable<T>(xs: seq<T>, key: T -> int, k: int)
    ensures WithKey(SortBy(xs, key), key, k) == WithKey(xs, key, k)
    decreases |xs|
  {
    if xs != [] {
      SortIsStable(xs[..|xs| - 1], key, k);
      InsertIsStable(SortBy(xs[..|xs| - 1], key), xs[|xs| - 1], key, k);
    }
  }

  // ----- the outages -----

  predicate Starts(ts: seq<Transition>, i: nat) {
    i < |ts| && ts[i].down && (i == 0 || !ts[i - 1].down)
  }

  predicate Ends(ts: seq<Transition>, i: nat) {
    0 < i < |ts| && !ts[i].down && ts[i - 1].down
  }

  /** The transitions that start, and those that end, an outage. */
  function StartsOf(ts: seq<Transition>): seq<nat> {
    if ts == [] then [] else
    StartsOf(ts[..|ts| - 1]) + if Starts(ts, |ts| - 1) then [|ts| - 1] else []
  }

  function EndsOf(ts: seq<Transition>): seq<nat> {
    if ts == [] then [] else
    EndsOf(ts[..|ts| - 1]) + if Ends(ts, |ts| - 1) then [|ts| - 1] else []
  }

  predicate OpenAtTheEnd(ts: seq<Transition>) {
    ts != [] && ts[|ts| - 1].down
  }

  predicate AllBelow(ps: seq<nat>, n: nat) {
    forall k :: 0 <= k < |ps| ==> ps[k] < n
  }

  /** Length of the outages that ended. */
  predicate Lengths(ts: seq<Transition>, starts: seq<nat>, ends: seq<nat>, durations: seq<int>) {
    && |ends| == |durations| <= |starts| && AllBelow(starts, |ts|) && AllBelow(ends, |ts|)
    && forall k :: 0 <= k < |ends| ==> durations[k] == ts[ends[k]].at - ts[starts[k]].at
  }

  predicate Paired(ts: seq<Transition>) {
    var starts, ends, p := StartsOf(ts), EndsOf(ts), Pair(ts);
    && Lengths(ts, starts, ends, p.durations)
    && |starts| == |ends| + (if OpenAtTheEnd(ts) then 1 else 0)
    && p.start == if OpenAtTheEnd(ts) then Some(ts[starts[|starts| - 1]].at) else None
  }

  lemma {:induction false} PairsAreOutages(ts: seq<Transition>)
    ensures Paired(ts)
    decreases |ts|
  {
    if ts != [] {
      var n := |ts| - 1;
      PairsAreOutages(ts[..n]);
      assert n > 0 ==> ts[..n][n - 1] == ts[n - 1];
    }
  }

  /**
   The durations: one for every outage that ended, from the transition that starts it to the one that
   ends it, and for a node unavailable now one more, from the last start to now.
   */
  lemma {:induction false} DurationsAreOutages(events: seq<Event>, available: Option<bool>, now: int, window: int)
    ensures var ts := Sort(Collect(events, now - window));
            var starts, ends, durations := StartsOf(ts), EndsOf(ts), Durations(ts, available, now);
            var open := OpenAtTheEnd(ts) && available == Some(false);
            && MetricsOf(events, available, now, window).episodes == |durations|
            && |durations| == |ends| + (if open then 1 else 0)
            && |ends| <= |starts| && AllBelow(starts, |ts|) && AllBelow(ends, |ts|)
            && (forall k :: 0 <= k < |ends| ==> durations[k] == ts[ends[k]].at - ts[starts[k]].at)
            && (open ==> starts != [] && durations[|ends|] == now - ts[starts[|starts| - 1]].at)
  {
    PairsAreOutages(Sort(Collect(events, now - window)));
  }

  // ----- the median -----

  /** The value is the one at position `k`, counted from 0, when all are put in order. */
  predicate HasRank(values: seq<int>, v: int, k: nat) {
    CountLe(values, v as real) > k && CountGe(values, v as real) >= |values| - k
  }

  lemma {:induction false} CountsAreDisjoint(values: seq<int>, v: int, w: int)
    requires v < w
    ensures CountLe(values, v as real) + CountGe(values, w as real) <= |values|
  {
    if values != [] {
      CountsAreDisjoint(values[..|values| - 1], v, w);
    }
  }

  /** No two values share a rank. */
  lemma {:induction false} RanksAreUnique(values: seq<int>, v: int, w: int, k: nat)
    requires HasRank(values, v, k) && HasRank(values, w, k)
    ensures v == w
  {
    if v < w {
      CountsAreDisjoint(values, v, w);
    } else if w < v {
      CountsAreDisjoint(values, w, v);
    }
  }

  lemma SortedHasRank(values: seq<int>, k: nat)
    requires k < |values|
    ensures |SortInts(values)| == |values| && HasRank(values, SortInts(values)[k], k) && SortInts(values)[k] in values
  {
    SortSorts(values, Itself);
    var v := SortInts(values)[k];
    SortedMembers(values, k);
    SortKeepsCounts(values, v as real);
    CountSorted(SortInts(values), k + 1, v as real);
    CountSorted(SortInts(values), k, v as real);
  }

  /**
   The median of the durations is that of rank n / 2 for an odd number of them, and for an even
   number the mean of those of rank n / 2 - 1 and n / 2.
   */
  lemma {:induction false} MedianIsTheMiddle(events: seq<Event>, available: Option<bool>, now: int, window: int)
    ensures var durations := Durations(Sort(Collect(events, now - window)), available, now);
            var median, n := MetricsOf(events, available, now, window).median, |durations|;
            && (median.None? <==> n == 0)
            && (n % 2 == 1 ==> exists a :: a in durations && HasRank(durations, a, n / 2) && median == Some(a as real))
            && (n % 2 == 0 && n > 0 ==>
                  exists a, b :: a in durations && b in durations && HasRank(durations, a, n / 2 - 1)
                                 && HasRank(durations, b, n / 2) && median == Some((a + b) as real / 2.0))
  {
    var durations := Durations(Sort(Collect(events, now - window)), available, now);
    if durations != [] {
      SortedHasRank(durations, |durations| / 2);
      if |durations| % 2 == 0 {
        SortedHasRank(durations, |durations| / 2 - 1);
      }
    }
  }
}
