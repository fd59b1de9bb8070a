/**
 mDNS handlers that overlap at their suspensions: what survives every overlap, what does not, and
 what handling each service's callbacks one after the other restores.
 */
module MdnsOverlap {
  import opened Containers
  import opened MdnsObserver

  // ----- handlers that overlap -----

  /**
   A handler is suspended between its mDNS half, which updates the cache and decides, and its TREL
   half. Halves of different handlers may come in any order.
   */
  datatype Half =
    | MdnsHalf(input: Input)
    | TrelUpsert(record: Record, at: int, changed: bool, isNew: bool)
    | TrelHide(serviceId: string, at: int)

  predicate NoTrel(serviceType: string) {
    false
  }

  function HalfStep(view: View, half: Half): View {
    match half
    case MdnsHalf(input) => Step(view, NoTrel, input)
    case TrelUpsert(record, at, changed, isNew) => UpsertTrel(view, record, at, changed, isNew)
    case TrelHide(id, at) => HideTrel(view, id, at)
  }

  function RunHalves(halves: seq<Half>): View {
    if halves == [] then View(map[], map[], [])
    else HalfStep(RunHalves(halves[..|halves| - 1]), halves[|halves| - 1])
  }

  /** The TREL half that a handler has left to do, if any. */
  function TrelHalf(view: View, isTrel: string -> bool, input: Input): Option<Half> {
    var d := Decision(view, input);
    if d.None? || !isTrel(input.Type()) then None
    else if input.Gone? then Some(TrelHide(input.serviceId, input.at))
    else Some(TrelUpsert(input.record, input.at, d.value.kind.Changed?, d.value.kind.Added?))
  }

  /** A handler that nothing interrupts is its two halves in a row. */
  lemma {:induction false} HalvesMakeAStep(view: View, isTrel: string -> bool, input: Input)
    ensures var half := TrelHalf(view, isTrel, input); var first := HalfStep(view, MdnsHalf(input));
            Step(view, isTrel, input) == if half.Some? then HalfStep(first, half.value) else first
  {
    match input
    case Found(record, at) =>
    case Refreshed(record, at) =>
    case Gone(id, serviceType, at) =>
  }

  lemma TrelHalfKeepsLifecycle(view: View, half: Half, id: string)
    requires Lifecycle(view, id) && !half.MdnsHalf?
    ensures Lifecycle(HalfStep(view, half), id)
  {
    var next := HalfStep(view, half);
    if next.decided != view.decided {
      var t := next.decided[|view.decided|];
      assert next.decided == view.decided + [t];
      HistoryAppend(view.decided, t, Mdns, id);
      assert History(view.decided, Mdns, id) + [] == History(view.decided, Mdns, id);
    }
  }

  /** The mDNS lifecycles hold however the halves of handlers overlap. */
  lemma {:induction false} OverlapKeepsLifecycles(halves: seq<Half>, id: string)
    ensures Lifecycle(RunHalves(halves), id)
    decreases |halves|
  {
    if halves != [] {
      var n := |halves| - 1;
      OverlapKeepsLifecycles(halves[..n], id);
      if halves[n].MdnsHalf? {
        StepKeepsLifecycle(RunHalves(halves[..n]), NoTrel, halves[n].input, id);
      } else {
        TrelHalfKeepsLifecycle(RunHalves(halves[..n]), halves[n], id);
      }
    }
  }

  /** The mirror does not: a removal inside a suspended addition leaves the TREL row visible. */
  lemma {:induction false} OverlapBreaksTheMirror(record: Record, now: int)
    ensures var id := record.serviceId;
            var added := HalfStep(View(map[], map[], []), MdnsHalf(Found(record, now)));
            var removed := HalfStep(added, MdnsHalf(Gone(id, record.serviceType, now)));
            var done := HalfStep(HalfStep(removed, TrelHide(id, now)), TrelUpsert(record, now, false, true));
            && id in done.mdns && !done.mdns[id].presence.visible
            && id in done.trel && done.trel[id].presence.visible
  {
  }

  // ----- one service at a time -----

  function About(half: Half): string {
    match half
    case MdnsHalf(input) => input.Id()
    case TrelUpsert(record, _, _, _) => record.serviceId
    case TrelHide(id, _) => id
  }

  /** Everything a view says about one service. */
  datatype Local = Local(
    mdns: Option<Service>, trel: Option<TrelService>, mdnsLog: seq<Transition>, trelLog: seq<Transition>)

  function At(view: View, id: string): Local {
    Local(Get(view.mdns, id), Get(view.trel, id), History(view.decided, Mdns, id), History(view.decided, Trel, id))
  }

  function Relabelled(log: seq<Transition>): seq<Transition> {
    seq(|log|, i requires 0 <= i < |log| => log[i].(layer := Trel))
  }

  /** The mirror for one service. */
  predicate Twins(l: Local, trel: bool) {
    && (l.trel.Some? <==> l.mdns.Some? && trel)
    && (l.trel.Some? ==> SameService(l.mdns.value, l.trel.value))
    && l.trelLog == if trel then Relabelled(l.mdnsLog) else []
  }

  /** The transition a half decides, if any. */
  function HalfDecision(view: View, half: Half): Option<Transition> {
    match half
    case MdnsHalf(input) => Decision(view, input)
    case TrelUpsert(record, at, changed, isNew) =>
      if isNew then Some(Transition(Trel, record.serviceId, Added, record.serviceId !in view.trel, at))
      else if changed then Some(Transition(Trel, record.serviceId, Changed, false, at))
      else None
    case TrelHide(id, at) => if id in view.trel then Some(Transition(Trel, id, Removed, false, at)) else None
  }

  lemma HalfAppends(view: View, half: Half)
    ensures HalfStep(view, half).decided == view.decided + ListOf(HalfDecision(view, half))
    ensures HalfDecision(view, half).Some? ==>
              HalfDecision(view, half).value.serviceId == About(half)
              && (HalfDecision(view, half).value.layer == Mdns <==> half.MdnsHalf?)
  {
  }

  lemma AppendAtMostOne(log: seq<Transition>, t: Option<Transition>, layer: Layer, id: string)
    ensures History(log + ListOf(t), layer, id) ==
              History(log, layer, id) +
              if t.Some? && t.value.layer == layer && t.value.serviceId == id then ListOf(t) else []
  {
    if t.Some? {
      HistoryAppend(log, t.value, layer, id);
    } else {
      assert log + ListOf(t) == log;
      assert History(log, layer, id) + [] == History(log, layer, id);
    }
  }

  /** What a half does to the history of one service. */
  lemma HalfHistory(view: View, half: Half, layer: Layer, id: string)
    ensures var t := HalfDecision(view, half);
            History(HalfStep(view, half).decided, layer, id) ==
              History(view.decided, layer, id) +
              if t.Some? && t.value.layer == layer && id == About(half) then ListOf(t) else []
  {
    HalfAppends(view, half);
    AppendAtMostOne(view.decided, HalfDecision(view, half), layer, id);
  }

  lemma HalfKeepsOtherRows(view: View, half: Half, id: string)
    requires About(half) != id
    ensures Get(HalfStep(view, half).mdns, id) == Get(view.mdns, id)
    ensures Get(HalfStep(view, half).trel, id) == Get(view.trel, id)
  {
  }

  lemma HalfKeepsOtherHistory(view: View, half: Half, layer: Layer, id: string)
    requires About(half) != id
    ensures History(HalfStep(view, half).decided, layer, id) == History(view.decided, layer, id)
  {
    HalfHistory(view, half, layer, id);
    var log := History(view.decided, layer, id);
    assert log + [] == log;
  }

  /** A half leaves every other service alone. */
  lemma HalfIsLocal(view: View, half: Half, id: string)
    requires About(half) != id
    ensures At(HalfStep(view, half), id) == At(view, id)
  {
    HalfKeepsOtherRows(view, half, id);
    HalfKeepsOtherHistory(view, half, Mdns, id);
    HalfKeepsOtherHistory(view, half, Trel, id);
  }

  /** What a half does to its service depends only on what the view says about that service. */
  lemma HalfDependsOnLocal(v: View, w: View, half: Half)
    requires At(v, About(half)) == At(w, About(half))
    ensures At(HalfStep(v, half), About(half)) == At(HalfStep(w, half), About(half))
  {
    var id := About(half);
    SameDecision(v, w, half);
    HalfHistory(v, half, Mdns, id);
    HalfHistory(v, half, Trel, id);
    HalfHistory(w, half, Mdns, id);
    HalfHistory(w, half, Trel, id);
  }

  lemma SameDecision(v: View, w: View, half: Half)
    requires Get(v.mdns, About(half)) == Get(w.mdns, About(half)) &&
               Get(v.trel, About(half)) == Get(w.trel, About(half))
    ensures HalfDecision(v, half) == HalfDecision(w, half)
    ensures Get(HalfStep(v, half).mdns, About(half)) == Get(HalfStep(w, half).mdns, About(half))
    ensures Get(HalfStep(v, half).trel, About(half)) == Get(HalfStep(w, half).trel, About(half))
  {
  }

  lemma StepKeepsTwinRows(view: View, isTrel: string -> bool, input: Input, trel: bool)
    requires Twins(At(view, input.Id()), trel) && isTrel(input.Type()) == trel
    ensures var next := Step(view, isTrel, input); var m, t := Get(next.mdns, input.Id()), Get(next.trel, input.Id());
            (t.Some? <==> m.Some? && trel) && (t.Some? ==> SameService(m.value, t.value))
  {
  }

  /** The TREL half of a handler decides the twin of what its mDNS half decided. */
  lemma TwinDecision(view: View, isTrel: string -> bool, input: Input, trel: bool)
    requires Twins(At(view, input.Id()), trel) && isTrel(input.Type()) == trel
    requires TrelHalf(view, isTrel, input).Some?
    ensures HalfDecision(HalfStep(view, MdnsHalf(input)), TrelHalf(view, isTrel, input).value) ==
              Some(Decision(view, input).value.(layer := Trel))
  {
  }

  /** The transition of the TREL half that follows. */
  function SecondDecision(view: View, isTrel: string -> bool, input: Input): Option<Transition> {
    var half := TrelHalf(view, isTrel, input);
    if half.Some? then HalfDecision(HalfStep(view, MdnsHalf(input)), half.value) else None
  }

  lemma FirstHalfLog(view: View, input: Input, layer: Layer)
    ensures History(HalfStep(view, MdnsHalf(input)).decided, layer, input.Id()) ==
              History(view.decided, layer, input.Id()) + if layer == Mdns then ListOf(Decision(view, input)) else []
  {
    HalfHistory(view, MdnsHalf(input), layer, input.Id());
    HalfAppends(view, MdnsHalf(input));
  }

  lemma SecondHalfLog(view: View, half: Half, layer: Layer, id: string)
    requires IsTrelHalf(half, id)
    ensures History(HalfStep(view, half).decided, layer, id) ==
              History(view.decided, layer, id) + if layer == Trel then ListOf(HalfDecision(view, half)) else []
  {
    HalfHistory(view, half, layer, id);
    HalfAppends(view, half);
  }

  /** One history of a service after an uninterrupted handler. */
  lemma StepLog(view: View, isTrel: string -> bool, input: Input, layer: Layer)
    ensures History(Step(view, isTrel, input).decided, layer, input.Id()) ==
              History(view.decided, layer, input.Id())
              + if layer == Mdns then ListOf(Decision(view, input)) else ListOf(SecondDecision(view, isTrel, input))
  {
    var id, first := input.Id(), HalfStep(view, MdnsHalf(input));
    var half, log := TrelHalf(view, isTrel, input), History(view.decided, layer, id);
    HalvesMakeAStep(view, isTrel, input);
    FirstHalfLog(view, input, layer);
    assert log + [] == log;
    if half.Some? {
      TrelHalfIsOwn(view, isTrel, input);
      SecondHalfLog(first, half.value, layer, id);
    }
  }

  /** The histories of a service after an uninterrupted handler. */
  lemma StepLogs(view: View, isTrel: string -> bool, input: Input, trel: bool)
    requires Twins(At(view, input.Id()), trel) && isTrel(input.Type()) == trel
    ensures var before, after, d := At(view, input.Id()), At(Step(view, isTrel, input), input.Id()),
              Decision(view, input);
            && after.mdnsLog == before.mdnsLog + ListOf(d)
            && after.trelLog == before.trelLog + if d.Some? && trel then [d.value.(layer := Trel)] else []
  {
    StepLog(view, isTrel, input, Mdns);
    StepLog(view, isTrel, input, Trel);
    if TrelHalf(view, isTrel, input).Some? {
      TwinDecision(view, isTrel, input, trel);
    }
  }

  lemma RelabelMore(log: seq<Transition>, d: Option<Transition>)
    ensures Relabelled(log + ListOf(d)) == Relabelled(log) + if d.Some? then [d.value.(layer := Trel)] else []
  {
  }

  /** An uninterrupted handler keeps the mirror of its service. */
  lemma StepKeepsTwins(view: View, isTrel: string -> bool, input: Input, trel: bool)
    requires Twins(At(view, input.Id()), trel) && isTrel(input.Type()) == trel
    ensures Twins(At(Step(view, isTrel, input), input.Id()), trel)
  {
    StepKeepsTwinRows(view, isTrel, input, trel);
    StepLogs(view, isTrel, input, trel);
    RelabelMore(At(view, input.Id()).mdnsLog, Decision(view, input));
  }

  // ----- TREL halves in the order of their mDNS halves -----

  predicate IsTrelHalf(half: Half, id: string) {
    !half.MdnsHalf? && About(half) == id
  }

  predicate OwnQueue(queue: seq<Half>, id: string) {
    forall i :: 0 <= i < |queue| ==> IsTrelHalf(queue[i], id)
  }

  /** The view once the halves of a queue are done, first in first out. */
  function Drain(view: View, queue: seq<Half>): View {
    if queue == [] then view else HalfStep(Drain(view, queue[..|queue| - 1]), queue[|queue| - 1])
  }

  lemma {:induction false} DrainFront(view: View, queue: seq<Half>)
    requires queue != []
    ensures Drain(HalfStep(view, queue[0]), queue[1..]) == Drain(view, queue)
    decreases |queue|
  {
    if |queue| == 1 {
      assert queue[1..] == [] && queue[..0] == [];
    } else {
      var n := |queue| - 1;
      DrainFront(view, queue[..n]);
      assert queue[..n][1..] == queue[1..][..n - 1] && queue[1..][n - 1] == queue[n];
    }
  }

  lemma DrainMore(view: View, queue: seq<Half>, half: Half)
    ensures Drain(view, queue + [half]) == HalfStep(Drain(view, queue), half)
  {
    assert (queue + [half])[..|queue|] == queue;
  }

  lemma {:induction false} DrainDependsOnLocal(v: View, w: View, queue: seq<Half>, id: string)
    requires At(v, id) == At(w, id) && OwnQueue(queue, id)
    ensures At(Drain(v, queue), id) == At(Drain(w, queue), id)
    decreases |queue|
  {
    if queue != [] {
      var n := |queue| - 1;
      DrainDependsOnLocal(v, w, queue[..n], id);
      assert IsTrelHalf(queue[n], id);
      HalfDependsOnLocal(Drain(v, queue[..n]), Drain(w, queue[..n]), queue[n]);
    }
  }

  lemma {:induction false} DrainKeepsMdns(view: View, queue: seq<Half>, id: string)
    requires OwnQueue(queue, id)
    ensures Drain(view, queue).mdns == view.mdns
    decreases |queue|
  {
    if queue != [] {
      DrainKeepsMdns(view, queue[..|queue| - 1], id);
      assert IsTrelHalf(queue[|queue| - 1], id);
    }
  }

  /** mDNS halves neither see nor touch the TREL rows. */
  lemma MdnsIgnoresTrel(v: View, w: View, input: Input)
    requires v.mdns == w.mdns
    ensures HalfStep(v, MdnsHalf(input)).mdns == HalfStep(w, MdnsHalf(input)).mdns
    ensures HalfStep(v, MdnsHalf(input)).trel == v.trel
    ensures HalfDecision(v, MdnsHalf(input)) == HalfDecision(w, MdnsHalf(input))
  {
  }

  /** TREL halves neither see nor touch the mDNS rows. */
  lemma TrelIgnoresMdns(v: View, w: View, half: Half)
    requires v.trel == w.trel && !half.MdnsHalf?
    ensures HalfStep(v, half).trel == HalfStep(w, half).trel
    ensures HalfStep(v, half).mdns == v.mdns
    ensures HalfDecision(v, half) == HalfDecision(w, half)
  {
  }

  /** What a half adds to the history of its service in one layer. */
  function Addition(view: View, half: Half, layer: Layer): seq<Transition> {
    var t := HalfDecision(view, half);
    if t.Some? && t.value.layer == layer then ListOf(t) else []
  }

  lemma TwoHistories(view: View, x: Half, y: Half, layer: Layer)
    requires About(x) == About(y)
    ensures History(HalfStep(HalfStep(view, x), y).decided, layer, About(x)) ==
              History(view.decided, layer, About(x)) +
                  (Addition(view, x, layer) + Addition(HalfStep(view, x), y, layer))
  {
    HalfHistory(view, x, layer, About(x));
    HalfHistory(HalfStep(view, x), y, layer, About(x));
    var log, p, q := History(view.decided, layer, About(x)), Addition(view, x, layer),
        Addition(HalfStep(view, x), y, layer);
    assert log + p + q == log + (p + q);
  }

  lemma HistoriesCommute(view: View, input: Input, half: Half, layer: Layer)
    requires IsTrelHalf(half, input.Id())
    ensures History(HalfStep(HalfStep(view, MdnsHalf(input)), half).decided, layer, input.Id())
         == History(HalfStep(HalfStep(view, half), MdnsHalf(input)).decided, layer, input.Id())
  {
    var first := MdnsHalf(input);
    MdnsIgnoresTrel(view, HalfStep(view, half), input);
    TrelIgnoresMdns(view, HalfStep(view, first), half);
    TwoHistories(view, first, half, layer);
    TwoHistories(view, half, first, layer);
    HalfAppends(view, first);
    HalfAppends(view, half);
    OneIsEmpty(Addition(view, first, layer), Addition(view, half, layer));
  }

  lemma OneIsEmpty(a: seq<Transition>, b: seq<Transition>)
    ensures a == [] || b == [] ==> a + b == b + a
  {
  }

  lemma RowsCommute(view: View, input: Input, half: Half)
    requires IsTrelHalf(half, input.Id())
    ensures var v, w := HalfStep(HalfStep(view, MdnsHalf(input)), half),
              HalfStep(HalfStep(view, half), MdnsHalf(input));
            v.mdns == w.mdns && v.trel == w.trel
  {
    MdnsIgnoresTrel(view, HalfStep(view, half), input);
    TrelIgnoresMdns(view, HalfStep(view, MdnsHalf(input)), half);
    TrelIgnoresMdns(HalfStep(view, MdnsHalf(input)), view, half);
    MdnsIgnoresTrel(HalfStep(view, half), view, input);
  }

  /** An mDNS half and a TREL half of one service may be swapped. */
  lemma HalvesCommute(view: View, input: Input, half: Half)
    requires IsTrelHalf(half, input.Id())
    ensures At(HalfStep(HalfStep(view, MdnsHalf(input)), half), input.Id())
         == At(HalfStep(HalfStep(view, half), MdnsHalf(input)), input.Id())
  {
    RowsCommute(view, input, half);
    HistoriesCommute(view, input, half, Mdns);
    HistoriesCommute(view, input, half, Trel);
  }

  lemma CommuteOnce(v: View, w: View, input: Input, half: Half)
    requires IsTrelHalf(half, input.Id()) && At(v, input.Id()) == At(HalfStep(w, MdnsHalf(input)), input.Id())
    ensures At(HalfStep(v, half), input.Id()) == At(HalfStep(HalfStep(w, half), MdnsHalf(input)), input.Id())
  {
    HalfDependsOnLocal(v, HalfStep(w, MdnsHalf(input)), half);
    HalvesCommute(w, input, half);
  }

  lemma {:induction false} DrainCommutes(view: View, input: Input, queue: seq<Half>)
    requires OwnQueue(queue, input.Id())
    ensures At(Drain(HalfStep(view, MdnsHalf(input)), queue), input.Id())
         == At(HalfStep(Drain(view, queue), MdnsHalf(input)), input.Id())
    decreases |queue|
  {
    if queue != [] {
      var n := |queue| - 1;
      assert IsTrelHalf(queue[n], input.Id());
      DrainCommutes(view, input, queue[..n]);
      CommuteOnce(Drain(HalfStep(view, MdnsHalf(input)), queue[..n]), Drain(view, queue[..n]), input, queue[n]);
    }
  }

  /**
   Handlers overlap at will; per service, the TREL halves left to do wait in the order in which
   their handlers began.
   */
  datatype Schedule = Schedule(view: View, queues: map<string, seq<Half>>)

  datatype Op = Start(input: Input) | Finish(serviceId: string)

  function QueueOf(s: Schedule, id: string): seq<Half> {
    Get(s.queues, id).GetOr([])
  }

  function Perform(s: Schedule, isTrel: string -> bool, op: Op): Schedule {
    match op
    case Start(input) =>
      var id, half := input.Id(), TrelHalf(s.view, isTrel, input);
      Schedule(HalfStep(s.view, MdnsHalf(input)),
        if half.Some? then s.queues[id := QueueOf(s, id) + [half.value]] else s.queues)
    case Finish(id) =>
      var queue := QueueOf(s, id);
      if queue == [] then s else Schedule(HalfStep(s.view, queue[0]), s.queues[id := queue[1..]])
  }

  function PerformAll(ops: seq<Op>, isTrel: string -> bool): Schedule {
    if ops == [] then Schedule(View(map[], map[], []), map[])
    else Perform(PerformAll(ops[..|ops| - 1], isTrel), isTrel, ops[|ops| - 1])
  }

  /** The mirror holds for the service once its queue is drained. */
  predicate WillMirror(s: Schedule, id: string, trel: bool) {
    OwnQueue(QueueOf(s, id), id) && Twins(At(Drain(s.view, QueueOf(s, id)), id), trel)
  }

  lemma TrelHalfIsOwn(view: View, isTrel: string -> bool, input: Input)
    ensures TrelHalf(view, isTrel, input).Some? ==> IsTrelHalf(TrelHalf(view, isTrel, input).value, input.Id())
  {
  }

  /** One more handler of a service, seen through its queue. */
  lemma QueueGrows(view: View, queue: seq<Half>, isTrel: string -> bool, input: Input, trel: bool)
    requires OwnQueue(queue, input.Id()) && Twins(At(Drain(view, queue), input.Id()), trel) &&
               isTrel(input.Type()) == trel
    ensures var half, after := TrelHalf(view, isTrel, input), HalfStep(view, MdnsHalf(input));
            Twins(At(if half.Some? then HalfStep(Drain(after, queue), half.value) else Drain(after, queue), input.Id()),
                trel)
  {
    var drained, half := Drain(view, queue), TrelHalf(view, isTrel, input);
    DrainKeepsMdns(view, queue, input.Id());
    SameTrelHalf(view, drained, isTrel, input);
    DrainCommutes(view, input, queue);
    HalvesMakeAStep(drained, isTrel, input);
    StepKeepsTwins(drained, isTrel, input, trel);
    if half.Some? {
      TrelHalfIsOwn(view, isTrel, input);
      HalfDependsOnLocal(Drain(HalfStep(view, MdnsHalf(input)), queue), HalfStep(drained, MdnsHalf(input)), half.value);
    }
  }

  lemma SameTrelHalf(v: View, w: View, isTrel: string -> bool, input: Input)
    requires v.mdns == w.mdns
    ensures TrelHalf(v, isTrel, input) == TrelHalf(w, isTrel, input)
  {
  }

  lemma StartKeeps(s: Schedule, isTrel: string -> bool, input: Input, trel: bool)
    requires WillMirror(s, input.Id(), trel) && isTrel(input.Type()) == trel
    ensures WillMirror(Perform(s, isTrel, Start(input)), input.Id(), trel)
  {
    var half, queue := TrelHalf(s.view, isTrel, input), QueueOf(s, input.Id());
    QueueGrows(s.view, queue, isTrel, input, trel);
    if half.Some? {
      TrelHalfIsOwn(s.view, isTrel, input);
      DrainMore(HalfStep(s.view, MdnsHalf(input)), queue, half.value);
    }
  }

  lemma FinishKeeps(s: Schedule, isTrel: string -> bool, id: string, trel: bool)
    requires WillMirror(s, id, trel)
    ensures WillMirror(Perform(s, isTrel, Finish(id)), id, trel)
  {
    var queue := QueueOf(s, id);
    if queue != [] {
      DrainFront(s.view, queue);
    }
  }

  lemma OtherKeeps(s: Schedule, isTrel: string -> bool, op: Op, half: Half, id: string, trel: bool)
    requires WillMirror(s, id, trel) && About(half) != id
    requires Perform(s, isTrel, op).view == HalfStep(s.view, half) &&
               QueueOf(Perform(s, isTrel, op), id) == QueueOf(s, id)
    ensures WillMirror(Perform(s, isTrel, op), id, trel)
  {
    HalfIsLocal(s.view, half, id);
    DrainDependsOnLocal(s.view, HalfStep(s.view, half), QueueOf(s, id), id);
  }

  lemma PerformKeeps(s: Schedule, isTrel: string -> bool, op: Op, id: string, trel: bool)
    requires WillMirror(s, id, trel) && (op.Finish? ==> OwnQueue(QueueOf(s, op.serviceId), op.serviceId))
    requires op.Start? && op.input.Id() == id ==> isTrel(op.input.Type()) == trel
    ensures WillMirror(Perform(s, isTrel, op), id, trel)
  {
    match op
    case Start(input) =>
      if input.Id() == id {
        StartKeeps(s, isTrel, input, trel);
      } else {
        OtherKeeps(s, isTrel, op, MdnsHalf(input), id, trel);
      }
    case Finish(other) =>
      if other == id {
        FinishKeeps(s, isTrel, id, trel);
      } else if QueueOf(s, other) != [] {
        assert IsTrelHalf(QueueOf(s, other)[0], other);
        OtherKeeps(s, isTrel, op, QueueOf(s, other)[0], id, trel);
      }
  }

  predicate StartsDetermineTrel(ops: seq<Op>, isTrel: string -> bool, trelIds: set<string>) {
    forall i :: 0 <= i < |ops| && ops[i].Start? ==> (isTrel(ops[i].input.Type()) <==> ops[i].input.Id() in trelIds)
  }

  /**
   However handlers overlap, of one service or of several: if each service's TREL halves run in the
   order of its mDNS halves, every service with nothing left to do is mirrored, and every other
   one will be when its queue is drained.
   */
  lemma {:induction false} OrderedHalvesMirror(ops: seq<Op>, isTrel: string -> bool, trelIds: set<string>)
    requires StartsDetermineTrel(ops, isTrel, trelIds)
    ensures var s := PerformAll(ops, isTrel);
            && (forall id :: QueueOf(s, id) == [] ==> Twins(At(s.view, id), id in trelIds))
            && (forall id :: WillMirror(s, id, id in trelIds))
    decreases |ops|
  {
    if ops == [] {
      assert Relabelled([]) == [];
    } else {
      var n := |ops| - 1;
      OrderedHalvesMirror(ops[..n], isTrel, trelIds);
      var before := PerformAll(ops[..n], isTrel);
      if ops[n].Finish? {
        assert WillMirror(before, ops[n].serviceId, ops[n].serviceId in trelIds);
      }
      forall id ensures WillMirror(PerformAll(ops, isTrel), id, id in trelIds) {
        PerformKeeps(before, isTrel, ops[n], id, id in trelIds);
      }
    }
  }

  // ----- TREL halves out of order -----

  /** The two halves do the same to a row and decide the same. */
  predicate SameEffect(a: Half, b: Half) {
    match (a, b)
    case (TrelUpsert(r, at, c, n), TrelUpsert(s, bt, d, m)) => r.advert == s.advert && at == bt && c == d && n == m
    case (TrelHide(_, at), TrelHide(_, bt)) => at == bt
    case _ => false
  }

  /** A half as handlers leave it: an upsert decides either "added" or "changed". */
  predicate Decides(half: Half) {
    half.TrelUpsert? ==> half.changed != half.isNew
  }

  lemma TrelHalvesAdd(view: View, half: Half)
    requires !half.MdnsHalf?
    ensures Addition(view, half, Mdns) == [] && Addition(view, half, Trel) == ListOf(HalfDecision(view, half))
  {
    HalfAppends(view, half);
  }

  lemma TwoHalves(view: View, a: Half, b: Half, id: string)
    requires IsTrelHalf(a, id) && IsTrelHalf(b, id)
    ensures var both := HalfStep(HalfStep(view, a), b);
            && both.mdns == view.mdns && History(both.decided, Mdns, id) == History(view.decided, Mdns, id)
            && History(both.decided, Trel, id) ==
                 History(view.decided, Trel, id) +
                     (ListOf(HalfDecision(view, a)) + ListOf(HalfDecision(HalfStep(view, a), b)))
  {
    TrelIgnoresMdns(view, view, a);
    TrelIgnoresMdns(HalfStep(view, a), HalfStep(view, a), b);
    TwoHistories(view, a, b, Mdns);
    TwoHistories(view, a, b, Trel);
    TrelHalvesAdd(view, a);
    TrelHalvesAdd(HalfStep(view, a), b);
    var m := History(view.decided, Mdns, id);
    assert m + ([] + []) == m;
  }

  lemma SameTails(log: seq<Transition>, a: seq<Transition>, b: seq<Transition>)
    ensures log + a == log + b <==> a == b
  {
    if log + a == log + b {
      assert a == (log + a)[|log|..] && b == (log + b)[|log|..];
    }
  }

  predicate SameDecisionEither(a: Half, b: Half) {
    || (a.TrelUpsert? && b.TrelUpsert? && a.at == b.at && a.changed == b.changed)
    || (a.TrelHide? && b.TrelHide? && a.at == b.at)
  }

  lemma PairsEqual(a: Transition, b: Transition, c: Option<Transition>, d: Option<Transition>)
    ensures [a] + [b] == ListOf(c) + ListOf(d) <==> c == Some(a) && d == Some(b)
  {
    if [a] + [b] == ListOf(c) + ListOf(d) {
      assert ([a] + [b])[0] == a && ([a] + [b])[1] == b;
      assert c.Some? && d.Some?;
      assert (ListOf(c) + ListOf(d))[0] == c.value && (ListOf(c) + ListOf(d))[1] == d.value;
    }
  }

  /** Whether the two orders decide the same transitions. */
  lemma SwappedDecisions(view: View, a: Half, b: Half, id: string)
    requires IsTrelHalf(a, id) && IsTrelHalf(b, id) && Decides(a) && Decides(b)
    requires HalfDecision(view, a).Some? && HalfDecision(HalfStep(view, a), b).Some?
    ensures var inOrder := ListOf(HalfDecision(view, a)) + ListOf(HalfDecision(HalfStep(view, a), b));
            var swapped := ListOf(HalfDecision(view, b)) + ListOf(HalfDecision(HalfStep(view, b), a));
            inOrder == swapped <==> SameDecisionEither(a, b)
  {
    PairsEqual(HalfDecision(view, a).value, HalfDecision(HalfStep(view, a), b).value,
      HalfDecision(view, b), HalfDecision(HalfStep(view, b), a));
  }

  /** The row the two orders leave, when they decide the same. */
  lemma SwappedRows(view: View, a: Half, b: Half, id: string, service: Service)
    requires IsTrelHalf(a, id) && IsTrelHalf(b, id) && Decides(a) && Decides(b) && HalfDecision(view, a).Some?
    requires SameDecisionEither(a, b)
    requires var inOrder := HalfStep(HalfStep(view, a), b); id in inOrder.trel && SameService(service, inOrder.trel[id])
    ensures var swapped := HalfStep(HalfStep(view, b), a);
            id in swapped.trel && (SameService(service, swapped.trel[id]) <==> SameEffect(a, b))
  {
  }

  /**
   Running two TREL halves of a service out of order breaks its mirror exactly when they differ in
   what they do: the mirror that the right order leaves is left by the wrong one if and only if the
   halves have the same effect.
   */
  lemma {:induction false} OutOfOrderBreaksTheMirror(view: View, a: Half, b: Half, id: string)
    requires IsTrelHalf(a, id) && IsTrelHalf(b, id) && Decides(a) && Decides(b)
    requires HalfDecision(view, a).Some? && HalfDecision(HalfStep(view, a), b).Some?
    requires Twins(At(HalfStep(HalfStep(view, a), b), id), true)
    ensures Twins(At(HalfStep(HalfStep(view, b), a), id), true) <==> SameEffect(a, b)
  {
    TwoHalves(view, a, b, id);
    TwoHalves(view, b, a, id);
    SwappedDecisions(view, a, b, id);
    SameTails(At(view, id).trelLog, ListOf(HalfDecision(view, a)) + ListOf(HalfDecision(HalfStep(view, a), b)),
      ListOf(HalfDecision(view, b)) + ListOf(HalfDecision(HalfStep(view, b), a)));
    if At(HalfStep(HalfStep(view, b), a), id).trelLog == At(HalfStep(HalfStep(view, a), b), id).trelLog {
      SwappedRows(view, a, b, id, view.mdns[id]);
    }
  }
}
