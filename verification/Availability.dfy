/**
 Per-node availability metrics: transitions inside the window are sorted, paired into offline
 episodes, summed, and their median taken. Times are integer ticks of one fixed unit.
 */
module Availability {
  import opened Containers

  datatype Kind = Unavailable | Recovered | Other

  /** A node event; `at` is None when its timestamp does not parse. */
  datatype Event = Event(at: Option<int>, kind: Kind)

  datatype Transition = Transition(at: int, down: bool)

  datatype Metrics = Metrics(
    unavailable: nat, recovered: nat, episodes: nat, total: int, median: Option<real>)

  // ----- collecting and sorting -----

  predicate IsTransition(e: Event, from: int) {
    !e.kind.Other? && e.at.Some? && e.at.value >= from
  }

  function AsTransition(e: Event): Transition
    requires e.at.Some?
  {
    Transition(e.at.value, e.kind.Unavailable?)
  }

  function Collect(events: seq<Event>, from: int): seq<Transition> {
    if events == [] then [] else
    var e := events[|events| - 1];
    Collect(events[..|events| - 1], from) + if IsTransition(e, from) then [AsTransition(e)] else []
  }

  // ----- Python's stable sort, one insertion at a time -----

  predicate Ordered<T>(xs: seq<T>, key: T -> int) {
    forall i, j :: 0 <= i < j < |xs| ==> key(xs[i]) <= key(xs[j])
  }

  /** Insert after everything whose key is not larger. */
  function Insert<T>(xs: seq<T>, x: T, key: T -> int): seq<T>
    decreases |xs|
  {
    if xs == [] || key(xs[|xs| - 1]) <= key(x) then xs + [x]
    else Insert(xs[..|xs| - 1], x, key) + [xs[|xs| - 1]]
  }

  function SortBy<T>(xs: seq<T>, key: T -> int): seq<T>
    decreases |xs|
  {
    if xs == [] then [] else Insert(SortBy(xs[..|xs| - 1], key), xs[|xs| - 1], key)
  }

  predicate Below<T>(xs: seq<T>, key: T -> int, bound: int) {
    forall i :: 0 <= i < |xs| ==> key(xs[i]) <= bound
  }

  lemma {:induction false} InsertStaysBelow<T>(xs: seq<T>, x: T, key: T -> int, bound: int)
    requires Below(xs, key, bound) && key(x) <= bound
    ensures Below(Insert(xs, x, key), key, bound)
    decreases |xs|
  {
    if xs != [] && key(xs[|xs| - 1]) > key(x) {
      InsertStaysBelow(xs[..|xs| - 1], x, key, bound);
    }
  }

  lemma {:induction false} InsertKeepsOrder<T>(xs: seq<T>, x: T, key: T -> int)
    requires Ordered(xs, key)
    ensures Ordered(Insert(xs, x, key), key)
    decreases |xs|
  {
    if xs != [] && key(xs[|xs| - 1]) > key(x) {
      var n := |xs| - 1;
      InsertKeepsOrder(xs[..n], x, key);
      InsertStaysBelow(xs[..n], x, key, key(xs[n]));
    }
  }

  lemma {:induction false} InsertAdds<T>(xs: seq<T>, x: T, key: T -> int)
    ensures multiset(Insert(xs, x, key)) == multiset(xs) + multiset{x}
    decreases |xs|
  {
    if xs != [] && key(xs[|xs| - 1]) > key(x) {
      var n := |xs| - 1;
      InsertAdds(xs[..n], x, key);
      assert xs == xs[..n] + [xs[n]];
    }
  }

  /** The result is ordered and holds the same elements. */
  lemma {:induction false} SortSorts<T>(xs: seq<T>, key: T -> int)
    ensures Ordered(SortBy(xs, key), key) && multiset(SortBy(xs, key)) == multiset(xs)
    ensures |SortBy(xs, key)| == |xs|
    decreases |xs|
  {
    if xs != [] {
      var n := |xs| - 1;
      SortSorts(xs[..n], key);
      InsertKeepsOrder(SortBy(xs[..n], key), xs[n], key);
      InsertAdds(SortBy(xs[..n], key), xs[n], key);
      assert xs == xs[..n] + [xs[n]];
      assert |multiset(SortBy(xs, key))| == |SortBy(xs, key)| && |multiset(xs)| == |xs|;
    }
  }

  function Time(t: Transition): int { t.at }

  function Sort(ts: seq<Transition>): seq<Transition> { SortBy(ts, Time) }

  predicate InOrder(ts: seq<Transition>) { Ordered(ts, Time) }

  // ----- pairing -----

  /** The episodes closed so far and the start of the open one. */
  datatype Pairing = Pairing(durations: seq<int>, start: Option<int>)

  function PairOne(p: Pairing, t: Transition): Pairing {
    if t.down then (if p.start.None? then p.(start := Some(t.at)) else p)
    else if p.start.Some? then Pairing(p.durations + [t.at - p.start.value], None)
    else p
  }

  function Pair(ts: seq<Transition>): Pairing {
    if ts == [] then Pairing([], None) else PairOne(Pair(ts[..|ts| - 1]), ts[|ts| - 1])
  }

  function Durations(ts: seq<Transition>, available: Option<bool>, now: int): seq<int> {
    var p := Pair(ts);
    if available == Some(false) && p.start.Some? then p.durations + [now - p.start.value] else p.durations
  }

  function Sum(xs: seq<int>): int {
    if xs == [] then 0 else Sum(xs[..|xs| - 1]) + xs[|xs| - 1]
  }

  function CountDown(ts: seq<Transition>, down: bool): nat {
    if ts == [] then 0 else CountDown(ts[..|ts| - 1], down) + if ts[|ts| - 1].down == down then 1 else 0
  }

  // ----- median -----

  function Itself(x: int): int { x }

  function SortInts(xs: seq<int>): seq<int> { SortBy(xs, Itself) }

  /** `_median_seconds`. */
  function Median(values: seq<int>): Option<real> {
    var ordered, mid := SortInts(values), |values| / 2;
    SortSorts(values, Itself);
    if values == [] then None
    else if |values| % 2 == 1 then Some(ordered[mid] as real)
    else Some((ordered[mid - 1] + ordered[mid]) as real / 2.0)
  }

  // ----- the metrics -----

  function MetricsOf(events: seq<Event>, available: Option<bool>, now: int, window: int): Metrics {
    var ts := Sort(Collect(events, now - window));
    var durations := Durations(ts, available, now);
    Metrics(CountDown(ts, true), CountDown(ts, false), |durations|, Sum(durations), Median(durations))
  }

  method ComputeMetrics(events: seq<Event>, available: Option<bool>, now: int, window: int) returns (m: Metrics)
    ensures m == MetricsOf(events, available, now, window)
  {
    var collected := CollectLoop(events, now - window);
    var unavailable, recovered, durations, total := PairLoop(Sort(collected), available, now);
    m := Metrics(unavailable, recovered, |durations|, total, Median(durations));
  }

  method CollectLoop(events: seq<Event>, from: int) returns (collected: seq<Transition>)
    ensures collected == Collect(events, from)
  {
    collected := [];
    for i := 0 to |events|
      invariant collected == Collect(events[..i], from)
    {
      var event := events[i];
      assert events[..i + 1][..i] == events[..i];
      if event.kind == Other {
        continue;
      }
      if event.at == None || event.at.value < from {
        continue;
      }
      collected := collected + [Transition(event.at.value, event.kind == Unavailable)];
    }
    assert events[..|events|] == events;
  }

  /** The pairing loop with the counts and the sum. */
  method PairLoop(ts: seq<Transition>, available: Option<bool>, now: int)
    returns (unavailable: nat, recovered: nat, durations: seq<int>, total: int)
    ensures unavailable == CountDown(ts, true) && recovered == CountDown(ts, false)
    ensures durations == Durations(ts, available, now) && total == Sum(durations)
  {
    unavailable, recovered, durations, total := 0, 0, [], 0;
    var offlineStart: Option<int> := None;
    for i := 0 to |ts|
      invariant Pairing(durations, offlineStart) == Pair(ts[..i]) && total == Sum(durations)
      invariant unavailable == CountDown(ts[..i], true) && recovered == CountDown(ts[..i], false)
    {
      var t := ts[i];
      assert ts[..i + 1][..i] == ts[..i];
      if t.down {
        unavailable := unavailable + 1;
        if offlineStart == None {
          offlineStart := Some(t.at);
        }
        continue;
      }
      recovered := recovered + 1;
      if offlineStart != None {
        SumMore(durations, t.at - offlineStart.value);
        total := total + (t.at - offlineStart.value);
        durations := durations + [t.at - offlineStart.value];
        offlineStart := None;
      }
    }
    assert ts[..|ts|] == ts;
    if available == Some(false) && offlineStart != None {
      SumMore(durations, now - offlineStart.value);
      total := total + (now - offlineStart.value);
      durations := durations + [now - offlineStart.value];
    }
  }

  lemma SumMore(xs: seq<int>, x: int)
    ensures Sum(xs + [x]) == Sum(xs) + x
  {
    assert (xs + [x])[..|xs|] == xs;
  }

  // ----- the tick-by-tick meaning -----

  /** The latest transition at or before `t` is "unavailable". */
  predicate OfflineAt(ts: seq<Transition>, t: int) {
    ts != [] && var last := ts[|ts| - 1];
    if last.at <= t then last.down else OfflineAt(ts[..|ts| - 1], t)
  }

  predicate RecoversAfter(ts: seq<Transition>, t: int) {
    exists i :: 0 <= i < |ts| && !ts[i].down && ts[i].at > t
  }

  /** Whether the tick from `t` to `t + 1` counts as offline time. */
  predicate Counts(ts: seq<Transition>, available: Option<bool>, t: int) {
    OfflineAt(ts, t) && (available == Some(false) || RecoversAfter(ts, t))
  }

  /** How many ticks in [lo, hi) count. */
  function Ticks(ts: seq<Transition>, available: Option<bool>, lo: int, hi: int): nat
    decreases hi - lo
  {
    if hi <= lo then 0 else Ticks(ts, available, lo, hi - 1) + if Counts(ts, available, hi - 1) then 1 else 0
  }

  lemma {:induction false} TicksSplit(ts: seq<Transition>, available: Option<bool>, lo: int, mid: int, hi: int)
    requires lo <= mid <= hi
    ensures Ticks(ts, available, lo, hi) == Ticks(ts, available, lo, mid) + Ticks(ts, available, mid, hi)
    decreases hi - mid
  {
    if mid < hi {
      TicksSplit(ts, available, lo, mid, hi - 1);
    }
  }

  lemma {:induction false} TicksAgree(a: seq<Transition>, va: Option<bool>, b: seq<Transition>, vb: Option<bool>,
      lo: int, hi: int)
    requires forall t :: lo <= t < hi ==> (Counts(a, va, t) <==> Counts(b, vb, t))
    ensures Ticks(a, va, lo, hi) == Ticks(b, vb, lo, hi)
    decreases hi - lo
  {
    if lo < hi {
      TicksAgree(a, va, b, vb, lo, hi - 1);
    }
  }

  lemma {:induction false} TicksConstant(ts: seq<Transition>, available: Option<bool>, lo: int, hi: int, all: bool)
    requires lo <= hi && forall t :: lo <= t < hi ==> Counts(ts, available, t) == all
    ensures Ticks(ts, available, lo, hi) == if all then hi - lo else 0
    decreases hi - lo
  {
    if lo < hi {
      TicksConstant(ts, available, lo, hi - 1, all);
    }
  }

  predicate Within(ts: seq<Transition>, lo: int, hi: int) {
    forall i :: 0 <= i < |ts| ==> lo <= ts[i].at <= hi
  }

  /** Ticks before the last transition do not see it, unless it is a recovery they were waiting for. */
  lemma BeforeLast(ts: seq<Transition>, t: int)
    requires ts != [] && InOrder(ts) && t < ts[|ts| - 1].at
    ensures OfflineAt(ts, t) <==> OfflineAt(ts[..|ts| - 1], t)
    ensures RecoversAfter(ts, t) <==> !ts[|ts| - 1].down || RecoversAfter(ts[..|ts| - 1], t)
  {
    var n := |ts| - 1;
    if RecoversAfter(ts, t) && ts[n].down {
      var i :| 0 <= i < |ts| && !ts[i].down && ts[i].at > t;
      assert ts[..n][i] == ts[i];
    }
    if RecoversAfter(ts[..n], t) {
      var i :| 0 <= i < n && !ts[..n][i].down && ts[..n][i].at > t;
      assert !ts[i].down && ts[i].at > t;
    }
  }

  /** Down for good: every offline tick up to `hi` adds up to the closed episodes and the open tail. */
  lemma {:induction false} OfflineTicks(ts: seq<Transition>, lo: int, hi: int)
    requires InOrder(ts) && Within(ts, lo, hi) && lo <= hi
    ensures Ticks(ts, Some(false), lo, hi) ==
              Sum(Pair(ts).durations) + if Pair(ts).start.Some? then hi - Pair(ts).start.value else 0
  {
    if ts == [] {
      TicksConstant(ts, Some(false), lo, hi, false);
    } else {
      var n, last := |ts| - 1, ts[|ts| - 1];
      var p := Pair(ts[..n]);
      OfflineTicks(ts[..n], lo, last.at);
      TicksSplit(ts, Some(false), lo, last.at, hi);
      forall t | lo <= t < last.at ensures Counts(ts, Some(false), t) <==> Counts(ts[..n], Some(false), t) {
        BeforeLast(ts, t);
      }
      TicksAgree(ts, Some(false), ts[..n], Some(false), lo, last.at);
      TicksConstant(ts, Some(false), last.at, hi, last.down);
      if p.start.Some? {
        SumMore(p.durations, last.at - p.start.value);
      }
    }
  }

  /** Otherwise: the ticks that a recovery closes add up to the closed episodes. */
  lemma {:induction false} ClosedTicks(ts: seq<Transition>, lo: int, hi: int, available: Option<bool>)
    requires InOrder(ts) && Within(ts, lo, hi) && lo <= hi && available != Some(false)
    ensures Ticks(ts, available, lo, hi) == Sum(Pair(ts).durations)
  {
    if ts == [] {
      TicksConstant(ts, available, lo, hi, false);
    } else {
      var n, last := |ts| - 1, ts[|ts| - 1];
      var p := Pair(ts[..n]);
      TicksSplit(ts, available, lo, last.at, hi);
      TicksConstant(ts, available, last.at, hi, false);
      forall t | lo <= t < last.at
        ensures Counts(ts, available, t) <==> Counts(ts[..n], if last.down then available else Some(false), t)
      {
        BeforeLast(ts, t);
      }
      if last.down {
        TicksAgree(ts, available, ts[..n], available, lo, last.at);
        ClosedTicks(ts[..n], lo, last.at, available);
      } else {
        TicksAgree(ts, available, ts[..n], Some(false), lo, last.at);
        OfflineTicks(ts[..n], lo, last.at);
        if p.start.Some? {
          SumMore(p.durations, last.at - p.start.value);
        }
      }
    }
  }

  /** No transition is later than `now`. */
  predicate NotAfter(events: seq<Event>, now: int) {
    forall e :: e in events && e.at.Some? ==> e.at.value <= now
  }

  lemma {:induction false} CollectedAreWithin(events: seq<Event>, lo: int, now: int)
    requires NotAfter(events, now)
    ensures Within(Collect(events, lo), lo, now)
  {
    if events != [] {
      var n := |events| - 1;
      assert forall e :: e in events[..n] ==> e in events;
      CollectedAreWithin(events[..n], lo, now);
      assert events[n] in events;
    }
  }

  lemma SortedAreWithin(ts: seq<Transition>, lo: int, hi: int)
    requires Within(ts, lo, hi)
    ensures Within(Sort(ts), lo, hi) && InOrder(Sort(ts))
  {
    SortSorts(ts, Time);
    forall i | 0 <= i < |Sort(ts)| ensures lo <= Sort(ts)[i].at <= hi {
      assert Sort(ts)[i] in multiset(Sort(ts));
      assert Sort(ts)[i] in ts;
    }
  }

  lemma {:induction false} TicksFit(ts: seq<Transition>, available: Option<bool>, lo: int, hi: int)
    requires lo <= hi
    ensures Ticks(ts, available, lo, hi) <= hi - lo
    decreases hi - lo
  {
    if lo < hi {
      TicksFit(ts, available, lo, hi - 1);
    }
  }

  /** The later of `now` and the last transition. */
  function End(ts: seq<Transition>, now: int): int {
    if ts == [] || ts[|ts| - 1].at < now then now else ts[|ts| - 1].at
  }

  lemma {:induction false} SomeTicksCount(ts: seq<Transition>, available: Option<bool>, lo: int, hi: int, t: int)
    requires lo <= t < hi && Counts(ts, available, t)
    ensures Ticks(ts, available, lo, hi) > 0
    decreases hi - lo
  {
    if t < hi - 1 {
      SomeTicksCount(ts, available, lo, hi - 1, t);
    }
  }

  lemma {:induction false} SomeTicksAreMissing(ts: seq<Transition>, available: Option<bool>, lo: int, hi: int, t: int)
    requires lo <= t < hi && !Counts(ts, available, t)
    ensures Ticks(ts, available, lo, hi) < hi - lo
    decreases hi - lo
  {
    if t < hi - 1 {
      SomeTicksAreMissing(ts, available, lo, hi - 1, t);
    } else {
      TicksFit(ts, available, lo, hi - 1);
    }
  }

  predicate Throughout(ts: seq<Transition>, available: Option<bool>, lo: int, hi: int, all: bool) {
    forall t :: lo <= t < hi ==> Counts(ts, available, t) == all
  }

  lemma ThroughoutIff(ts: seq<Transition>, available: Option<bool>, lo: int, hi: int, all: bool)
    requires lo <= hi
    ensures Throughout(ts, available, lo, hi, all) <==> Ticks(ts, available, lo, hi) == if all then hi - lo else 0
  {
    if Throughout(ts, available, lo, hi, all) {
      TicksConstant(ts, available, lo, hi, all);
    } else {
      var t :| lo <= t < hi && Counts(ts, available, t) != all;
      if all {
        SomeTicksAreMissing(ts, available, lo, hi, t);
      } else {
        SomeTicksCount(ts, available, lo, hi, t);
      }
    }
  }

  function LastOpens(ts: seq<Transition>, available: Option<bool>): bool {
    available == Some(false) && Pair(ts).start.Some?
  }

  /** What the metrics add up, against the ticks up to the end of everything. */
  lemma TotalUpToTheEnd(ts: seq<Transition>, available: Option<bool>, lo: int, now: int)
    requires InOrder(ts) && Within(ts, lo, End(ts, now)) && lo <= now
    ensures Sum(Durations(ts, available, now)) ==
              Ticks(ts, available, lo, End(ts, now)) - if LastOpens(ts, available) then End(ts, now) - now else 0
  {
    if available == Some(false) {
      OfflineTicks(ts, lo, End(ts, now));
      if Pair(ts).start.Some? {
        SumMore(Pair(ts).durations, now - Pair(ts).start.value);
      }
    } else {
      ClosedTicks(ts, lo, End(ts, now), available);
    }
  }

  lemma {:induction false} CollectedAreLate(events: seq<Event>, lo: int)
    ensures forall i :: 0 <= i < |Collect(events, lo)| ==> lo <= Collect(events, lo)[i].at
  {
    if events != [] {
      CollectedAreLate(events[..|events| - 1], lo);
    }
  }

  lemma SortedAreWithinEnd(ts: seq<Transition>, lo: int, now: int)
    requires forall i :: 0 <= i < |ts| ==> lo <= ts[i].at
    ensures var sorted := Sort(ts); InOrder(sorted) && Within(sorted, lo, End(sorted, now))
  {
    SortSorts(ts, Time);
    var sorted := Sort(ts);
    forall i | 0 <= i < |sorted| ensures lo <= sorted[i].at <= End(sorted, now) {
      assert sorted[i] in multiset(sorted);
      assert sorted[i] in ts;
      assert i < |sorted| - 1 ==> Time(sorted[i]) <= Time(sorted[|sorted| - 1]);
    }
  }

  /**
   For all events: the total is the number of offline ticks of the window exactly when nothing
   changes after `now`, that is, when every tick from `now` to the last transition counts if the
   metrics leave an open outage at the end, and none does otherwise.
   */
  lemma {:induction false} TotalIsExactWhen(events: seq<Event>, available: Option<bool>, now: int, window: nat)
    ensures var ts := Sort(Collect(events, now - window));
            MetricsOf(events, available, now, window).total == Ticks(ts, available, now - window, now)
            <==> Throughout(ts, available, now, End(ts, now), LastOpens(ts, available))
  {
    var lo, ts := now - window, Sort(Collect(events, now - window));
    CollectedAreLate(events, lo);
    SortedAreWithinEnd(Collect(events, lo), lo, now);
    TotalUpToTheEnd(ts, available, lo, now);
    TicksSplit(ts, available, lo, now, End(ts, now));
    ThroughoutIff(ts, available, now, End(ts, now), LastOpens(ts, available));
  }

  lemma NothingAfterNow(ts: seq<Transition>, available: Option<bool>, lo: int, now: int)
    requires Within(ts, lo, now)
    ensures Throughout(ts, available, now, End(ts, now), LastOpens(ts, available))
  {
  }

  /**
   With no transition after `now` the condition holds. So the total is the number of window ticks
   whose latest transition is "unavailable", those after the last transition counting only if the
   node is unavailable now, and it never exceeds the window.
   */
  lemma {:induction false} TotalCountsOfflineTicks(events: seq<Event>, available: Option<bool>, now: int, window: nat)
    requires NotAfter(events, now)
    ensures var ts := Sort(Collect(events, now - window));
            var total := MetricsOf(events, available, now, window).total;
            total == Ticks(ts, available, now - window, now) && 0 <= total <= window
  {
    var lo := now - window;
    var ts := Sort(Collect(events, lo));
    CollectedAreWithin(events, lo, now);
    SortedAreWithin(Collect(events, lo), lo, now);
    NothingAfterNow(ts, available, lo, now);
    TotalIsExactWhen(events, available, now, window);
    TicksFit(ts, available, lo, now);
  }

  lemma TwoOf<T>(a: T, b: T)
    ensures [a, b][..1] == [a] && [a][..0] == []
  {
  }

  lemma SumOfOne(x: int)
    ensures Sum([x]) == x
  {
    assert [x][..0] == [];
  }

  lemma SortedPair(a: Transition, b: Transition)
    requires a.at <= b.at
    ensures Sort([a, b]) == [a, b]
  {
    TwoOf(a, b);
    assert SortBy([], Time) == [];
    assert SortBy([a], Time) == [a];
  }

  lemma CollectedPair(a: Event, b: Event, from: int)
    requires IsTransition(a, from) && IsTransition(b, from)
    ensures Collect([a, b], from) == [AsTransition(a), AsTransition(b)]
  {
    TwoOf(a, b);
    assert Collect([a], from) == [AsTransition(a)];
  }

  lemma PairedPair(a: Transition, b: Transition)
    requires a.down && !b.down
    ensures Pair([a, b]) == Pairing([b.at - a.at], None)
  {
    TwoOf(a, b);
    assert Pair([a]) == Pairing([], Some(a.at));
  }

  lemma TotalOf(events: seq<Event>, available: Option<bool>, now: int, window: int, durations: seq<int>)
    requires Durations(Sort(Collect(events, now - window)), available, now) == durations
    ensures MetricsOf(events, available, now, window).total == Sum(durations)
  {
  }

  /** A recovery stamped after `now` pushes the total of an outage over the whole window beyond it. */
  lemma {:induction false} FutureEventsOverrun(a: Event, b: Event, now: int, window: nat)
    requires a.kind.Unavailable? && a.at == Some(now - window)
    requires b.kind.Recovered? && b.at.Some? && b.at.value > now
    ensures MetricsOf([a, b], Some(true), now, window).total == window + (b.at.value - now)
  {
    var x, y := AsTransition(a), AsTransition(b);
    CollectedPair(a, b, now - window);
    SortedPair(x, y);
    PairedPair(x, y);
    TotalOf([a, b], Some(true), now, window, [y.at - x.at]);
    SumOfOne(y.at - x.at);
  }

  lemma OneCollected(e: Event, from: int)
    requires IsTransition(e, from)
    ensures Collect([e], from) == [AsTransition(e)] && Sort([AsTransition(e)]) == [AsTransition(e)]
  {
    assert [e][..0] == [] && [AsTransition(e)][..0] == [];
    assert SortBy([], Time) == [];
  }

  lemma OpenOutage(t: Transition, now: int)
    requires t.down
    ensures Durations([t], Some(false), now) == [now - t.at]
  {
    assert [t][..0] == [];
    assert Pair([t]) == Pairing([], Some(t.at));
  }

  /** An outage that starts after `now` makes the total of an unavailable node negative. */
  lemma {:induction false} FutureOutageIsNegative(e: Event, now: int, window: nat)
    requires e.kind.Unavailable? && e.at.Some? && e.at.value > now
    ensures MetricsOf([e], Some(false), now, window).total == now - e.at.value < 0
  {
    OneCollected(e, now - window);
    OpenOutage(AsTransition(e), now);
    TotalOf([e], Some(false), now, window, [now - e.at.value]);
    SumOfOne(now - e.at.value);
  }

  // ----- counts -----

  lemma {:induction false} EpisodesNeedTransitions(ts: seq<Transition>)
    ensures var p := Pair(ts);
            && |p.durations| + (if p.start.Some? then 1 else 0) <= CountDown(ts, true)
            && |p.durations| <= CountDown(ts, false)
  {
    if ts != [] {
      EpisodesNeedTransitions(ts[..|ts| - 1]);
    }
  }

  /** Episodes never outnumber the unavailable transitions, nor the recoveries by more than one. */
  lemma {:induction false} EpisodesAreBounded(events: seq<Event>, available: Option<bool>, now: int, window: int)
    ensures var m := MetricsOf(events, available, now, window);
            m.episodes <= m.unavailable && m.episodes <= m.recovered + 1
  {
    EpisodesNeedTransitions(Sort(Collect(events, now - window)));
  }

  // ----- median -----

  function CountLe(xs: seq<int>, m: real): nat {
    if xs == [] then 0 else CountLe(xs[..|xs| - 1], m) + if xs[|xs| - 1] as real <= m then 1 else 0
  }

  function CountGe(xs: seq<int>, m: real): nat {
    if xs == [] then 0 else CountGe(xs[..|xs| - 1], m) + if xs[|xs| - 1] as real >= m then 1 else 0
  }

  lemma CountMore(xs: seq<int>, x: int, m: real)
    ensures CountLe(xs + [x], m) == CountLe(xs, m) + if x as real <= m then 1 else 0
    ensures CountGe(xs + [x], m) == CountGe(xs, m) + if x as real >= m then 1 else 0
  {
    assert (xs + [x])[..|xs|] == xs;
  }

  lemma {:induction false} InsertKeepsCounts(xs: seq<int>, x: int, m: real)
    ensures CountLe(Insert(xs, x, Itself), m) == CountLe(xs + [x], m)
    ensures CountGe(Insert(xs, x, Itself), m) == CountGe(xs + [x], m)
    decreases |xs|
  {
    if xs != [] && xs[|xs| - 1] > x {
      var n := |xs| - 1;
      InsertKeepsCounts(xs[..n], x, m);
      CountMore(Insert(xs[..n], x, Itself), xs[n], m);
      CountMore(xs[..n], x, m);
      CountMore(xs, x, m);
    }
  }

  lemma {:induction false} SortKeepsCounts(xs: seq<int>, m: real)
    ensures CountLe(SortInts(xs), m) == CountLe(xs, m) && CountGe(SortInts(xs), m) == CountGe(xs, m)
    decreases |xs|
  {
    if xs != [] {
      var n := |xs| - 1;
      SortKeepsCounts(xs[..n], m);
      InsertKeepsCounts(SortInts(xs[..n]), xs[n], m);
      CountMore(SortInts(xs[..n]), xs[n], m);
    }
  }

  lemma {:induction false} CountSorted(xs: seq<int>, k: nat, m: real)
    requires Ordered(xs, Itself) && k <= |xs|
    ensures (k > 0 ==> xs[k - 1] as real <= m) ==> CountLe(xs, m) >= k
    ensures (k < |xs| ==> xs[k] as real >= m) ==> CountGe(xs, m) >= |xs| - k
    decreases |xs|
  {
    if xs != [] {
      var n := |xs| - 1;
      CountSorted(xs[..n], if k <= n then k else n, m);
      assert k > 0 ==> Itself(xs[k - 1]) <= Itself(xs[n]) || k == |xs|;
    }
  }

  /** The two middle positions; they coincide when the length is odd. */
  function LowMid(n: nat): nat
    requires n > 0
  {
    (n - 1) / 2
  }

  lemma MedianIsInTheMiddle(values: seq<int>)
    requires values != []
    ensures var ordered, m := SortInts(values), Median(values).value;
            && |ordered| == |values| && Ordered(ordered, Itself)
            && ordered[LowMid(|values|)] as real <= m <= ordered[|values| / 2] as real
  {
    SortSorts(values, Itself);
    var ordered := SortInts(values);
    if |values| % 2 == 0 {
      var mid := |values| / 2;
      assert LowMid(|values|) == mid - 1;
      assert Itself(ordered[mid - 1]) <= Itself(ordered[mid]);
    }
  }

  lemma SortedMembers(values: seq<int>, k: nat)
    requires k < |SortInts(values)|
    ensures SortInts(values)[k] in values
  {
    SortSorts(values, Itself);
    SameMembers(SortInts(values), values, SortInts(values)[k]);
  }

  lemma HalvesAroundTheMiddle(ordered: seq<int>, m: real)
    requires ordered != [] && Ordered(ordered, Itself)
    requires ordered[LowMid(|ordered|)] as real <= m <= ordered[|ordered| / 2] as real
    ensures 2 * CountLe(ordered, m) >= |ordered| && 2 * CountGe(ordered, m) >= |ordered|
  {
    CountSorted(ordered, LowMid(|ordered|) + 1, m);
    CountSorted(ordered, |ordered| / 2, m);
  }

  /**
   The median lies between the shortest and the longest value, and at least half of the values
   are on either side of it.
   */
  lemma {:induction false} MedianSplits(values: seq<int>)
    requires values != []
    ensures var m := Median(values).value;
            && (exists a, b :: a in values && b in values && a as real <= m <= b as real)
            && 2 * CountLe(values, m) >= |values| && 2 * CountGe(values, m) >= |values|
  {
    var m, ordered := Median(values).value, SortInts(values);
    MedianIsInTheMiddle(values);
    SortKeepsCounts(values, m);
    HalvesAroundTheMiddle(ordered, m);
    SortedMembers(values, LowMid(|values|));
    SortedMembers(values, |values| / 2);
  }

  // ----- the order of the input -----

  predicate DistinctTimes(ts: seq<Transition>) {
    forall i, j :: 0 <= i < j < |ts| ==> ts[i].at != ts[j].at
  }

  /** Nothing is later than the last transition of an ordered sequence. */
  lemma LastIsLatest(a: seq<Transition>, x: Transition)
    requires a != [] && InOrder(a) && x in a
    ensures x.at < a[|a| - 1].at || (x.at == a[|a| - 1].at && (DistinctTimes(a) ==> x == a[|a| - 1]))
  {
    var i :| 0 <= i < |a| && a[i] == x;
    assert i < |a| - 1 ==> Time(a[i]) <= Time(a[|a| - 1]);
  }

  lemma SameMembers<T>(a: seq<T>, b: seq<T>, x: T)
    requires multiset(a) == multiset(b) && x in a
    ensures x in b
  {
    assert x in multiset(a);
  }

  lemma DropSame<T>(a: seq<T>, b: seq<T>)
    requires a != [] && b != [] && multiset(a) == multiset(b) && a[|a| - 1] == b[|b| - 1]
    ensures multiset(a[..|a| - 1]) == multiset(b[..|b| - 1])
  {
    var n, m := |a| - 1, |b| - 1;
    assert a == a[..n] + [a[n]] && b == b[..m] + [b[m]];
    assert multiset(a[..n]) == multiset(a) - multiset{a[n]};
    assert multiset(b[..m]) == multiset(b) - multiset{a[n]};
  }

  lemma {:induction false} OrderedTwins(a: seq<Transition>, b: seq<Transition>)
    requires InOrder(a) && InOrder(b) && DistinctTimes(a) && DistinctTimes(b) && multiset(a) == multiset(b)
    ensures a == b
    decreases |a|
  {
    assert |multiset(a)| == |a| && |multiset(b)| == |b|;
    if a != [] {
      var n := |a| - 1;
      SameMembers(a, b, a[n]);
      SameMembers(b, a, b[n]);
      LastIsLatest(a, b[n]);
      LastIsLatest(b, a[n]);
      DropSame(a, b);
      OrderedTwins(a[..n], b[..n]);
      assert a == a[..n] + [a[n]] && b == b[..n] + [b[n]];
    }
  }

  lemma {:induction false} CollectCounts(events: seq<Event>, from: int, t: Transition)
    ensures multiset(Collect(events, from))[t] ==
              if t.at >= from then multiset(events)[Event(Some(t.at), if t.down then Unavailable else Recovered)] else 0
  {
    if events != [] {
      var n := |events| - 1;
      CollectCounts(events[..n], from, t);
      assert events == events[..n] + [events[n]];
    }
  }

  lemma CollectIgnoresOrder(a: seq<Event>, b: seq<Event>, from: int)
    requires multiset(a) == multiset(b)
    ensures multiset(Collect(a, from)) == multiset(Collect(b, from))
  {
    forall t ensures multiset(Collect(a, from))[t] == multiset(Collect(b, from))[t] {
      CollectCounts(a, from, t);
      CollectCounts(b, from, t);
    }
  }

  lemma SortedAlike(a: seq<Event>, b: seq<Event>, from: int)
    requires multiset(a) == multiset(b) && DistinctTimes(Sort(Collect(a, from)))
    ensures Sort(Collect(a, from)) == Sort(Collect(b, from))
  {
    CollectIgnoresOrder(a, b, from);
    SortIgnoresOrder(Collect(a, from), Collect(b, from));
  }

  lemma SortedGivesMetrics(a: seq<Event>, b: seq<Event>, available: Option<bool>, now: int, window: int)
    requires Sort(Collect(a, now - window)) == Sort(Collect(b, now - window))
    ensures MetricsOf(a, available, now, window) == MetricsOf(b, available, now, window)
  {
  }

  /** When the timestamps are distinct, the order in which events are supplied does not matter. */
  lemma {:induction false} OrderDoesNotMatter(a: seq<Event>, b: seq<Event>, available: Option<bool>, now: int,
      window: int)
    requires multiset(a) == multiset(b)
    requires DistinctTimes(Sort(Collect(a, now - window)))
    ensures MetricsOf(a, available, now, window) == MetricsOf(b, available, now, window)
  {
    SortedAlike(a, b, now - window);
    SortedGivesMetrics(a, b, available, now, window);
  }

  lemma SortIgnoresOrder(x: seq<Transition>, y: seq<Transition>)
    requires multiset(x) == multiset(y) && DistinctTimes(Sort(x))
    ensures Sort(x) == Sort(y)
  {
    SortSorts(x, Time);
    SortSorts(y, Time);
    SameTimesDistinct(Sort(x), Sort(y));
    OrderedTwins(Sort(x), Sort(y));
  }

  lemma SameTimesDistinct(a: seq<Transition>, b: seq<Transition>)
    requires multiset(a) == multiset(b) && DistinctTimes(a)
    ensures DistinctTimes(b)
  {
    forall i, j | 0 <= i < j < |b| ensures b[i].at != b[j].at {
      assert multiset(b)[b[i]] >= 1 && multiset(b)[b[j]] >= 1;
      assert b[i] in a && b[j] in a;
      if b[i] == b[j] {
        TwiceInSeq(b, i, j);
        TwiceMeansPair(a, b[i]);
      }
    }
  }

  lemma TwiceInSeq(s: seq<Transition>, i: nat, j: nat)
    requires i < j < |s| && s[i] == s[j]
    ensures multiset(s)[s[i]] >= 2
  {
    assert s == s[..j] + s[j..];
    assert s[..j][i] == s[i] && s[j..][0] == s[i];
    assert s[i] in multiset(s[..j]) && s[i] in multiset(s[j..]);
  }

  lemma {:induction false} TwiceMeansPair(s: seq<Transition>, x: Transition)
    requires multiset(s)[x] >= 2
    ensures exists i, j :: 0 <= i < j < |s| && s[i] == x && s[j] == x
  {
    var n := |s| - 1;
    assert s == s[..n] + [s[n]];
    if s[n] == x {
      assert x in multiset(s[..n]);
      var i :| 0 <= i < n && s[i] == x;
    } else {
      TwiceMeansPair(s[..n], x);
      var i, j :| 0 <= i < j < n && s[..n][i] == x && s[..n][j] == x;
    }
  }
}
