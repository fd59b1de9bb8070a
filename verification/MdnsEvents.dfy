/**
 Which decided mDNS and TREL transitions reach the stored event log, and how many of them the
 health rules can find there.
 */
module MdnsEvents {
  import opened Debounce
  import opened MdnsObserver
  import Decimal

  // ----- debounce keys -----

  lemma EventNamesDiffer(a: Layer, j: Kind, b: Layer, k: Kind)
    ensures EventName(a, j) == EventName(b, k) ==> a == b && j == k
    ensures ':' !in EventName(a, j)
  {
    var x, y := EventName(a, j), EventName(b, k);
    assert x[0] == if a.Mdns? then 'm' else 't';
    assert y[0] == if b.Mdns? then 'm' else 't';
    assert x[|x| - 3] == match j case Added => 'd' case Changed => 'g' case Removed => 'v';
    assert y[|y| - 3] == match k case Added => 'd' case Changed => 'g' case Removed => 'v';
  }

  predicate SameKind(t: Transition, layer: Layer, id: string, kind: Kind) {
    t.layer == layer && t.serviceId == id && t.kind == kind
  }

  function KeyOf(layer: Layer, id: string, kind: Kind): string {
    CallOf(Transition(layer, id, kind, false, 0)).key
  }

  /** Services, layers and kinds are debounced apart, even if service ids contain colons. */
  lemma {:induction false} KeysTellKinds(t: Transition, layer: Layer, id: string, kind: Kind)
    ensures CallOf(t).key == KeyOf(layer, id, kind) <==> SameKind(t, layer, id, kind)
  {
    EventNamesDiffer(t.layer, t.kind, layer, kind);
    EventNamesDiffer(layer, kind, t.layer, t.kind);
    if CallOf(t).key == KeyOf(layer, id, kind) {
      assert CallOf(t).key == t.serviceId + [':'] + EventName(t.layer, t.kind);
      assert KeyOf(layer, id, kind) == id + [':'] + EventName(layer, kind);
      Decimal.JoinIsInjective(t.serviceId, EventName(t.layer, t.kind), id, EventName(layer, kind), ':');
    }
  }

  /** The times of one kind of transition of one service. */
  function KindTimes(log: seq<Transition>, layer: Layer, id: string, kind: Kind): seq<int> {
    if log == [] then [] else
    var t := log[|log| - 1];
    KindTimes(log[..|log| - 1], layer, id, kind) + if SameKind(t, layer, id, kind) then [t.at] else []
  }

  lemma KindTimesAppend(log: seq<Transition>, t: Transition, layer: Layer, id: string, kind: Kind)
    ensures KindTimes(log + [t], layer, id, kind) ==
              KindTimes(log, layer, id, kind) + if SameKind(t, layer, id, kind) then [t.at] else []
  {
    assert (log + [t])[..|log|] == log;
  }

  lemma EmittedAppend(calls: seq<Call>, call: Call, debounce: nat)
    ensures Emitted(calls + [call], debounce) ==
              Emitted(calls, debounce) + if Emits(LastAfter(calls, debounce), debounce, call) then [call] else []
  {
    assert (calls + [call])[..|calls|] == calls;
  }

  lemma {:induction false} KindTimesAreCalls(decided: seq<Transition>, layer: Layer, id: string, kind: Kind)
    ensures KindTimes(decided, layer, id, kind) == TimesOf(Calls(decided), KeyOf(layer, id, kind))
    decreases |decided|
  {
    if decided != [] {
      var n := |decided| - 1;
      KindTimesAreCalls(decided[..n], layer, id, kind);
      KeysTellKinds(decided[n], layer, id, kind);
      TimesOfAppend(Calls(decided[..n]), CallOf(decided[n]), KeyOf(layer, id, kind));
    }
  }

  lemma PassedTimesAppend(before: seq<Transition>, t: Transition, debounce: nat, layer: Layer, id: string, kind: Kind)
    requires KindTimes(Passed(before, debounce), layer, id, kind)
          == TimesOf(Emitted(Calls(before), debounce), KeyOf(layer, id, kind))
    ensures KindTimes(Passed(before + [t], debounce), layer, id, kind)
         == TimesOf(Emitted(Calls(before + [t]), debounce), KeyOf(layer, id, kind))
  {
    var key, emitted, passed := KeyOf(layer, id, kind), Emitted(Calls(before), debounce), Passed(before, debounce);
    DecideOne(before, t, debounce);
    EmittedAppend(Calls(before), CallOf(t), debounce);
    KeysTellKinds(t, layer, id, kind);
    KindTimesAppend(passed, t, layer, id, kind);
    TimesOfAppend(emitted, CallOf(t), key);
    assert passed + [] == passed && emitted + [] == emitted;
  }

  lemma {:induction false} PassedTimesAreEmitted(decided: seq<Transition>, debounce: nat, layer: Layer, id: string,
      kind: Kind)
    ensures KindTimes(Passed(decided, debounce), layer, id, kind)
         == TimesOf(Emitted(Calls(decided), debounce), KeyOf(layer, id, kind))
    decreases |decided|
  {
    if decided != [] {
      var n := |decided| - 1;
      var before, t := decided[..n], decided[n];
      PassedTimesAreEmitted(before, debounce, layer, id, kind);
      assert decided == before + [t];
      PassedTimesAppend(before, t, debounce, layer, id, kind);
    }
  }

  // ----- when stored events are all decided ones -----

  /** The appearances and disappearances of one service, oldest first. */
  function FlipsOf(log: seq<Transition>, layer: Layer, id: string): seq<Transition> {
    Flips(History(log, layer, id))
  }

  predicate IsFlip(t: Transition, layer: Layer, id: string) {
    t.layer == layer && t.serviceId == id && !t.kind.Changed?
  }

  lemma FlipsAppend(log: seq<Transition>, t: Transition, layer: Layer, id: string)
    ensures FlipsOf(log + [t], layer, id) == FlipsOf(log, layer, id) + if IsFlip(t, layer, id) then [t] else []
  {
    var history := History(log, layer, id);
    HistoryAppend(log, t, layer, id);
    GrowHistory(history, t);
    assert history + [] == history && Flips(history) + [] == Flips(history);
  }

  lemma {:induction false} FlipsAreAddsAndRemoves(log: seq<Transition>, layer: Layer, id: string)
    ensures |FlipsOf(log, layer, id)| == |KindTimes(log, layer, id, Added)| + |KindTimes(log, layer, id, Removed)|
    decreases |log|
  {
    if log != [] {
      var n := |log| - 1;
      FlipsAreAddsAndRemoves(log[..n], layer, id);
      FlipsAppend(log[..n], log[n], layer, id);
      assert log == log[..n] + [log[n]];
    }
  }

  lemma PassedAppend(before: seq<Transition>, t: Transition, debounce: nat)
    ensures Passed(before + [t], debounce) in [Passed(before, debounce), Passed(before, debounce) + [t]]
  {
    DecideOne(before, t, debounce);
    assert Passed(before, debounce) + [] == Passed(before, debounce);
  }

  /** `stored` lost nothing of `all`, or it is shorter. */
  predicate WholeOrShorter(stored: seq<Transition>, all: seq<Transition>) {
    stored == all || |stored| < |all|
  }

  lemma FlipsGrow(stored: seq<Transition>, next: seq<Transition>, all: seq<Transition>, t: Transition, layer: Layer,
      id: string)
    requires next in [stored, stored + [t]]
    requires WholeOrShorter(FlipsOf(stored, layer, id), FlipsOf(all, layer, id))
    ensures WholeOrShorter(FlipsOf(next, layer, id), FlipsOf(all + [t], layer, id))
  {
    FlipsAppend(stored, t, layer, id);
    FlipsAppend(all, t, layer, id);
  }

  lemma {:induction false} StoredFlipsAreSome(decided: seq<Transition>, debounce: nat, layer: Layer, id: string)
    ensures WholeOrShorter(FlipsOf(Passed(decided, debounce), layer, id), FlipsOf(decided, layer, id))
    decreases |decided|
  {
    if decided != [] {
      var before, t := decided[..|decided| - 1], decided[|decided| - 1];
      StoredFlipsAreSome(before, debounce, layer, id);
      assert decided == before + [t];
      PassedAppend(before, t, debounce);
      FlipsGrow(Passed(before, debounce), Passed(decided, debounce), before, t, layer, id);
    }
  }

  /**
   A service's stored appearances and disappearances are all its decided ones exactly when its
   appearances are the debounce time apart and so are its disappearances.
   */
  lemma {:induction false} AllFlipsAreStoredIff(decided: seq<Transition>, debounce: nat, layer: Layer, id: string)
    ensures FlipsOf(Passed(decided, debounce), layer, id) == FlipsOf(decided, layer, id)
            <==> (Spaced(KindTimes(decided, layer, id, Added), debounce)
                  && Spaced(KindTimes(decided, layer, id, Removed), debounce))
  {
    var passed := Passed(decided, debounce);
    StoredFlipsAreSome(decided, debounce, layer, id);
    FlipsAreAddsAndRemoves(decided, layer, id);
    FlipsAreAddsAndRemoves(passed, layer, id);
    StoredKindIff(decided, debounce, layer, id, Added);
    StoredKindIff(decided, debounce, layer, id, Removed);
  }

  lemma StoredKindIff(decided: seq<Transition>, debounce: nat, layer: Layer, id: string, kind: Kind)
    ensures var stored, all := KindTimes(Passed(decided, debounce), layer, id, kind),
              KindTimes(decided, layer, id, kind);
            |stored| <= |all| && (|stored| == |all| <==> Spaced(all, debounce))
  {
    KindTimesAreCalls(decided, layer, id, kind);
    PassedTimesAreEmitted(decided, debounce, layer, id, kind);
    AllPassIffSpaced(Calls(decided), debounce, KeyOf(layer, id, kind));
  }

  /** Then, in every run, the stored events of the service alternate like its decided transitions. */
  lemma {:induction false} SpacedFlipsAlternate(inputs: seq<Input>, isTrel: string -> bool, id: string, debounce: nat)
    requires Spaced(KindTimes(Run(inputs, isTrel).decided, Mdns, id, Added), debounce)
    requires Spaced(KindTimes(Run(inputs, isTrel).decided, Mdns, id, Removed), debounce)
    ensures Alternates(FlipsOf(Passed(Run(inputs, isTrel).decided, debounce), Mdns, id))
  {
    EveryServiceHasALifecycle(inputs, isTrel, id);
    AllFlipsAreStoredIff(Run(inputs, isTrel).decided, debounce, Mdns, id);
  }

  /** One service, seen at 0 and 25 and lost at 20 and 50. */
  function Flapping(id: string): seq<Transition> {
    [Transition(Mdns, id, Added, true, 0), Transition(Mdns, id, Removed, false, 20),
     Transition(Mdns, id, Added, false, 25), Transition(Mdns, id, Removed, false, 50)]
  }

  lemma FlappingKeysDiffer(id: string)
    ensures CallOf(Flapping(id)[0]).key != CallOf(Flapping(id)[1]).key
  {
    var a, b := CallOf(Flapping(id)[0]).key, CallOf(Flapping(id)[1]).key;
    assert a[|a| - 3] == 'd' && b[|b| - 3] == 'v';
  }

  /** One more transition, from what has passed and the last emissions so far. */
  lemma PassOne(before: seq<Transition>, t: Transition, passed: seq<Transition>, last: map<string, int>, call: Call)
    requires Passed(before, 30) == passed && LastAfter(Calls(before), 30) == last && call == CallOf(t)
    ensures LastAfter(Calls(before + [t]), 30) == Observe(last, 30, call)
    ensures Passed(before + [t], 30) == if Emits(last, 30, call) then passed + [t] else passed
  {
    DecideOne(before, t, 30);
  }

  lemma PassNext(before: seq<Transition>, t: Transition, passed: seq<Transition>, last: map<string, int>, key: string)
    requires key == CallOf(t).key && (key !in last || t.at - last[key] >= 30)
    requires Passed(before, 30) == passed && LastAfter(Calls(before), 30) == last
    ensures LastAfter(Calls(before + [t]), 30) == last[key := t.at] && Passed(before + [t], 30) == passed + [t]
  {
    PassOne(before, t, passed, last, Call(key, t.at));
  }

  lemma HoldNext(before: seq<Transition>, t: Transition, passed: seq<Transition>, last: map<string, int>, key: string)
    requires key == CallOf(t).key && key in last && t.at - last[key] < 30
    requires Passed(before, 30) == passed && LastAfter(Calls(before), 30) == last
    ensures LastAfter(Calls(before + [t]), 30) == last && Passed(before + [t], 30) == passed
  {
    PassOne(before, t, passed, last, Call(key, t.at));
  }

  lemma PassFirst(a: Transition, ka: string)
    requires ka == CallOf(a).key
    ensures Passed([a], 30) == [a] && LastAfter(Calls([a]), 30) == map[ka := a.at]
  {
    var nothing: seq<Transition>, never: map<string, int> := [], map[];
    PassNext(nothing, a, nothing, never, ka);
    assert nothing + [a] == [a] && never[ka := a.at] == map[ka := a.at];
  }

  /**
   Alternation holds of decided transitions only. With a debounce of 30, this service's stored
   events are one appearance followed by two disappearances.
   */
  lemma {:induction false} StoredEventsNeedNotAlternate(id: string)
    ensures var decided := Flapping(id);
            Alternates(decided) && Passed(decided, 30) == [decided[0], decided[1], decided[3]]
  {
    var decided := Flapping(id);
    FlappingKeysDiffer(id);
    var ka, kb := CallOf(decided[0]).key, CallOf(decided[1]).key;
    var firstTwo, last := [decided[0]] + [decided[1]], map[ka := 0][kb := 20];
    PassFirst(decided[0], ka);
    PassNext([decided[0]], decided[1], [decided[0]], map[ka := 0], kb);
    HoldNext(firstTwo, decided[2], firstTwo, last, ka);
    PassNext(firstTwo + [decided[2]], decided[3], firstTwo, last, kb);
    assert decided == firstTwo + [decided[2]] + [decided[3]];
  }

  // ----- how many flaps one service can add to the health count -----

  /** Stored appearances and disappearances of one service, the initial observation excepted. */
  function CountFlaps(log: seq<Transition>, layer: Layer, id: string, lo: int, hi: int): nat {
    if log == [] then 0 else
    var t := log[|log| - 1];
    CountFlaps(log[..|log| - 1], layer, id, lo, hi) +
      if t.layer == layer && t.serviceId == id && !t.kind.Changed? && !t.initial && lo <= t.at <= hi then 1 else 0
  }

  lemma CountWithinAppend(times: seq<int>, t: int, lo: int, hi: int)
    ensures CountWithin(times + [t], lo, hi) == CountWithin(times, lo, hi) + if lo <= t <= hi then 1 else 0
  {
    assert (times + [t])[..|times|] == times;
  }

  lemma CountKindAppend(log: seq<Transition>, t: Transition, layer: Layer, id: string, kind: Kind, lo: int, hi: int)
    ensures CountWithin(KindTimes(log + [t], layer, id, kind), lo, hi) ==
              CountWithin(KindTimes(log, layer, id, kind), lo, hi)
              + if SameKind(t, layer, id, kind) && lo <= t.at <= hi then 1 else 0
  {
    KindTimesAppend(log, t, layer, id, kind);
    CountWithinAppend(KindTimes(log, layer, id, kind), t.at, lo, hi);
    assert KindTimes(log, layer, id, kind) + [] == KindTimes(log, layer, id, kind);
  }

  lemma {:induction false} FlapsAreAddsAndRemoves(log: seq<Transition>, layer: Layer, id: string, lo: int, hi: int)
    ensures CountFlaps(log, layer, id, lo, hi) <=
              CountWithin(KindTimes(log, layer, id, Added), lo, hi) +
                  CountWithin(KindTimes(log, layer, id, Removed), lo, hi)
    decreases |log|
  {
    if log != [] {
      var n := |log| - 1;
      assert log == log[..n] + [log[n]];
      FlapsAreAddsAndRemoves(log[..n], layer, id, lo, hi);
      CountKindAppend(log[..n], log[n], layer, id, Added, lo, hi);
      CountKindAppend(log[..n], log[n], layer, id, Removed, lo, hi);
    }
  }

  lemma StoredKindIsBounded(decided: seq<Transition>, debounce: nat, layer: Layer, id: string, kind: Kind, lo: int,
      width: nat)
    requires debounce > 0
    ensures CountWithin(KindTimes(Passed(decided, debounce), layer, id, kind), lo, lo + width) <= width / debounce + 1
  {
    PassedTimesAreEmitted(decided, debounce, layer, id, kind);
    WindowBound(Calls(decided), debounce, KeyOf(layer, id, kind), lo, width);
  }

  /** In a window of length `width`, one service adds at most `2 * (width / debounce + 1)` flaps. */
  lemma {:induction false} FlapBound(decided: seq<Transition>, debounce: nat, layer: Layer, id: string, lo: int,
      width: nat)
    requires debounce > 0
    ensures CountFlaps(Passed(decided, debounce), layer, id, lo, lo + width) <= 2 * (width / debounce + 1)
  {
    FlapsAreAddsAndRemoves(Passed(decided, debounce), layer, id, lo, lo + width);
    StoredKindIsBounded(decided, debounce, layer, id, Added, lo, width);
    StoredKindIsBounded(decided, debounce, layer, id, Removed, lo, width);
  }
}
