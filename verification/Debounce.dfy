/**
 The event debouncer shared by every collector: of the calls made for one key, it lets through
 the first and then each call at least `debounce` time units after the last one let through.
 Times are integers in one fixed unit.
 */
module Debounce {
  import opened Containers

  datatype Call = Call(key: string, at: int)

  predicate Emits(last: map<string, int>, debounce: nat, call: Call) {
    call.key !in last || call.at - last[call.key] >= debounce
  }

  function Observe(last: map<string, int>, debounce: nat, call: Call): map<string, int> {
    if Emits(last, debounce, call) then last[call.key := call.at] else last
  }

  class EventDebouncer {
    const debounce: nat
    var lastEventAt: map<string, int>

    constructor (debounce: nat)
      ensures this.debounce == debounce && lastEventAt == map[]
    {
      this.debounce := debounce;
      lastEventAt := map[];
    }

    method ShouldEmit(key: string, now: int) returns (emit: bool)
      modifies this
      ensures emit <==> Emits(old(lastEventAt), debounce, Call(key, now))
      ensures lastEventAt == Observe(old(lastEventAt), debounce, Call(key, now))
    {
      if key in lastEventAt {
        var elapsed := now - lastEventAt[key];
        if elapsed < debounce {
          return false;
        }
      }
      lastEventAt := lastEventAt[key := now];
      return true;
    }
  }

  // ----- whole runs of calls -----

  function LastAfter(calls: seq<Call>, debounce: nat): map<string, int> {
    if calls == [] then map[] else Observe(LastAfter(calls[..|calls| - 1], debounce), debounce, calls[|calls| - 1])
  }

  /** The calls that were let through, in order. */
  function Emitted(calls: seq<Call>, debounce: nat): seq<Call> {
    if calls == [] then [] else
    var before, call := calls[..|calls| - 1], calls[|calls| - 1];
    Emitted(before, debounce) + if Emits(LastAfter(before, debounce), debounce, call) then [call] else []
  }

  /** The times of the calls made for one key. */
  function TimesOf(calls: seq<Call>, key: string): seq<int> {
    if calls == [] then [] else
    var call := calls[|calls| - 1];
    TimesOf(calls[..|calls| - 1], key) + if call.key == key then [call.at] else []
  }

  /** Keep `t` if it is `gap` after the last one kept. */
  function Keep(kept: seq<int>, t: int, gap: nat): seq<int> {
    if kept == [] || t - kept[|kept| - 1] >= gap then kept + [t] else kept
  }

  /** The greedy filter on one stream of times. */
  function Greedy(times: seq<int>, gap: nat): seq<int> {
    if times == [] then [] else Keep(Greedy(times[..|times| - 1], gap), times[|times| - 1], gap)
  }

  lemma TimesOfAppend(calls: seq<Call>, call: Call, key: string)
    ensures TimesOf(calls + [call], key) == TimesOf(calls, key) + if call.key == key then [call.at] else []
  {
    assert (calls + [call])[..|calls|] == calls;
  }

  lemma GreedyAppend(times: seq<int>, t: int, gap: nat)
    ensures Greedy(times + [t], gap) == Keep(Greedy(times, gap), t, gap)
  {
    assert (times + [t])[..|times|] == times;
  }

  /** The debouncer's memory of a key is the last time kept for it. */
  predicate Remembers(last: map<string, int>, key: string, kept: seq<int>) {
    && (key in last <==> kept != [])
    && (kept != [] ==> last[key] == kept[|kept| - 1])
  }

  lemma OneCall(last: map<string, int>, debounce: nat, call: Call, key: string, kept: seq<int>)
    requires Remembers(last, key, kept)
    ensures var after := if call.key == key then Keep(kept, call.at, debounce) else kept;
            && Remembers(Observe(last, debounce, call), key, after)
            && (call.key == key ==> after == if Emits(last, debounce, call) then kept + [call.at] else kept)
  {
  }

  /** Keys never interfere: what passes for a key is the greedy filter of that key's own calls. */
  lemma {:induction false} KeysAreIndependent(calls: seq<Call>, debounce: nat, key: string)
    ensures TimesOf(Emitted(calls, debounce), key) == Greedy(TimesOf(calls, key), debounce)
    ensures Remembers(LastAfter(calls, debounce), key, Greedy(TimesOf(calls, key), debounce))
  {
    if calls != [] {
      var before, call := calls[..|calls| - 1], calls[|calls| - 1];
      KeysAreIndependent(before, debounce, key);
      var emitted, times := Emitted(before, debounce), TimesOf(before, key);
      TimesOfAppend(emitted, call, key);
      GreedyAppend(times, call.at, debounce);
      OneCall(LastAfter(before, debounce), debounce, call, key, Greedy(times, debounce));
      assert emitted + [] == emitted && times + [] == times && TimesOf(emitted, key) + [] == TimesOf(emitted, key);
    }
  }

  // ----- what the greedy filter guarantees -----

  predicate Spaced(times: seq<int>, gap: nat) {
    forall i, j :: 0 <= i < j < |times| ==> times[j] - times[i] >= gap
  }

  predicate Nondecreasing(times: seq<int>) {
    forall i, j :: 0 <= i < j < |times| ==> times[i] <= times[j]
  }

  /** `picks` names, in call order, positions whose times are pairwise at least `gap` apart. */
  predicate IsSpacedSelection(times: seq<int>, picks: seq<nat>, gap: nat) {
    && (forall i :: 0 <= i < |picks| ==> picks[i] < |times|)
    && (forall i, j :: 0 <= i < j < |picks| ==> picks[i] < picks[j])
    && (forall i, j :: 0 <= i < j < |picks| ==> times[picks[j]] - times[picks[i]] >= gap)
  }

  lemma {:induction false} GreedyIsSpaced(times: seq<int>, gap: nat)
    ensures Spaced(Greedy(times, gap), gap)
  {
    if times != [] {
      GreedyIsSpaced(times[..|times| - 1], gap);
    }
  }

  lemma {:induction false} KeptAreCalls(times: seq<int>, gap: nat)
    ensures forall t :: t in Greedy(times, gap) ==> t in times
  {
    if times != [] {
      KeptAreCalls(times[..|times| - 1], gap);
    }
  }

  lemma LastKept(times: seq<int>, gap: nat)
    requires Nondecreasing(times) && times != []
    ensures var kept := Greedy(times, gap); kept != [] && kept[|kept| - 1] <= times[|times| - 1]
  {
    KeptAreCalls(times, gap);
    var kept := Greedy(times, gap);
    assert kept[|kept| - 1] in times;
  }

  lemma SelectionShrinks(times: seq<int>, picks: seq<nat>, gap: nat)
    requires IsSpacedSelection(times, picks, gap) && picks != []
    ensures picks[|picks| - 1] < |times|
    ensures picks[|picks| - 1] < |times| - 1 ==> IsSpacedSelection(times[..|times| - 1], picks, gap)
    ensures IsSpacedSelection(times[..|times| - 1], picks[..|picks| - 1], gap)
  {
  }

  /** Greedy stays ahead: a selection of the same size cannot end earlier. */
  lemma {:induction false} GreedyStaysAhead(times: seq<int>, gap: nat, picks: seq<nat>)
    requires Nondecreasing(times)
    requires IsSpacedSelection(times, picks, gap)
    ensures |picks| <= |Greedy(times, gap)|
    ensures var kept := Greedy(times, gap);
            picks != [] && |picks| == |kept| ==> kept[|kept| - 1] <= times[picks[|picks| - 1]]
    decreases |times|
  {
    if picks != [] {
      var m, n := |picks| - 1, |times| - 1;
      SelectionShrinks(times, picks, gap);
      LastKept(times, gap);
      if picks[m] < n {
        GreedyStaysAhead(times[..n], gap, picks);
      } else if m > 0 {
        GreedyStaysAhead(times[..n], gap, picks[..m]);
        assert times[n] - times[picks[m - 1]] >= gap;
      }
    }
  }

  /**
   The debouncer is optimal: for each key the emissions are at least `debounce` apart, and no
   choice of that key's calls that is at least `debounce` apart is longer.
   */
  lemma {:induction false} DebouncerIsOptimal(calls: seq<Call>, debounce: nat, key: string, picks: seq<nat>)
    requires Nondecreasing(TimesOf(calls, key))
    requires IsSpacedSelection(TimesOf(calls, key), picks, debounce)
    ensures Spaced(TimesOf(Emitted(calls, debounce), key), debounce)
    ensures |picks| <= |TimesOf(Emitted(calls, debounce), key)|
  {
    KeysAreIndependent(calls, debounce, key);
    GreedyIsSpaced(TimesOf(calls, key), debounce);
    GreedyStaysAhead(TimesOf(calls, key), debounce, picks);
  }

  lemma GreedyOfThree(a: int, b: int, c: int, gap: nat)
    ensures Greedy([a, b, c], gap) == Keep(Keep([a], b, gap), c, gap)
  {
    var none: seq<int> := [];
    assert [a, b, c] == none + [a] + [b] + [c];
    GreedyAppend(none, a, gap);
    GreedyAppend(none + [a], b, gap);
    GreedyAppend(none + [a] + [b], c, gap);
    assert none + [a] == [a];
  }

  /** Optimality needs the clock not to step back: calls at 100, 0 and 30 pass once, not twice. */
  lemma {:induction false} BackwardClockLosesOptimality()
    ensures IsSpacedSelection([100, 0, 30], [1, 2], 30) && Greedy([100, 0, 30], 30) == [100]
  {
    GreedyOfThree(100, 0, 30, 30);
  }

  function CountWithin(times: seq<int>, lo: int, hi: int): nat {
    if times == [] then 0 else
    CountWithin(times[..|times| - 1], lo, hi) + if lo <= times[|times| - 1] <= hi then 1 else 0
  }

  lemma {:induction false} CountWithinShrinks(times: seq<int>, lo: int, hi: int, bound: int)
    requires forall i :: 0 <= i < |times| ==> times[i] <= bound
    ensures CountWithin(times, lo, hi) <= CountWithin(times, lo, bound)
  {
    if times != [] {
      CountWithinShrinks(times[..|times| - 1], lo, hi, bound);
    }
  }

  lemma ScaleUp(b: nat, c: nat, gap: nat, room: int)
    requires b <= c && (c > 0 ==> (c - 1) * gap <= room - gap) && room >= 0
    ensures b * gap <= room
  {
    if c > 0 {
      assert c * gap == (c - 1) * gap + gap;
      assert c * gap == b * gap + (c - b) * gap;
    }
  }

  lemma {:induction false} SpacedCount(times: seq<int>, gap: nat, lo: int, hi: int)
    requires Spaced(times, gap)
    ensures CountWithin(times, lo, hi) > 0 ==> (CountWithin(times, lo, hi) - 1) * gap <= hi - lo
  {
    if times != [] {
      var before, t := times[..|times| - 1], times[|times| - 1];
      if lo <= t <= hi {
        assert forall i :: 0 <= i < |before| ==> before[i] <= t - gap;
        CountWithinShrinks(before, lo, hi, t - gap);
        var c := CountWithin(before, lo, t - gap);
        SpacedCount(before, gap, lo, t - gap);
        ScaleUp(CountWithin(before, lo, hi), c, gap, t - lo);
      } else {
        SpacedCount(before, gap, lo, hi);
      }
    }
  }

  lemma PositiveFactor(x: int, d: nat)
    requires x * d > 0
    ensures x > 0
  {
  }

  lemma QuotientBound(c: nat, d: nat, w: nat)
    requires d > 0 && c * d <= w
    ensures c <= w / d
  {
    var q := w / d;
    assert w < (q + 1) * d;
    PositiveFactor(q + 1 - c, d);
  }

  lemma SpacedWindow(times: seq<int>, gap: nat, lo: int, width: nat)
    requires gap > 0 && Spaced(times, gap)
    ensures CountWithin(times, lo, lo + width) <= width / gap + 1
  {
    SpacedCount(times, gap, lo, lo + width);
    var c := CountWithin(times, lo, lo + width);
    if c > 0 {
      QuotientBound(c - 1, gap, width);
    }
  }

  /** A closed window of length `width` holds at most `width / debounce + 1` emissions per key. */
  lemma {:induction false} WindowBound(calls: seq<Call>, debounce: nat, key: string, lo: int, width: nat)
    requires debounce > 0
    ensures CountWithin(TimesOf(Emitted(calls, debounce), key), lo, lo + width) <= width / debounce + 1
  {
    KeysAreIndependent(calls, debounce, key);
    GreedyIsSpaced(TimesOf(calls, key), debounce);
    SpacedWindow(TimesOf(Emitted(calls, debounce), key), debounce, lo, width);
  }

  lemma {:induction false} GreedyDropsOnly(times: seq<int>, gap: nat)
    ensures |Greedy(times, gap)| <= |times|
    ensures |Greedy(times, gap)| == |times| <==> Greedy(times, gap) == times
    decreases |times|
  {
    if times != [] {
      var n := |times| - 1;
      GreedyDropsOnly(times[..n], gap);
      assert times == times[..n] + [times[n]];
    }
  }

  lemma {:induction false} SpacedIsKept(times: seq<int>, gap: nat)
    requires Spaced(times, gap)
    ensures Greedy(times, gap) == times
    decreases |times|
  {
    if times != [] {
      var n := |times| - 1;
      SpacedIsKept(times[..n], gap);
      assert times == times[..n] + [times[n]];
    }
  }

  /** Everything is kept exactly when it is spaced already. */
  lemma {:induction false} KeptWholeIffSpaced(times: seq<int>, gap: nat)
    ensures Greedy(times, gap) == times <==> Spaced(times, gap)
  {
    GreedyIsSpaced(times, gap);
    if Spaced(times, gap) {
      SpacedIsKept(times, gap);
    }
  }

  /** All calls of a key pass exactly when they are the debounce time apart. */
  lemma {:induction false} AllPassIffSpaced(calls: seq<Call>, debounce: nat, key: string)
    ensures |TimesOf(Emitted(calls, debounce), key)| <= |TimesOf(calls, key)|
    ensures |TimesOf(Emitted(calls, debounce), key)| == |TimesOf(calls, key)| <==> Spaced(TimesOf(calls, key), debounce)
  {
    KeysAreIndependent(calls, debounce, key);
    GreedyDropsOnly(TimesOf(calls, key), debounce);
    KeptWholeIffSpaced(TimesOf(calls, key), debounce);
  }
}
