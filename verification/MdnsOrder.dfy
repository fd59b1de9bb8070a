/**
 mDNS handlers whose halves run in any order at all: exactly when the TREL rows and transitions
 mirror the mDNS ones once every half has run.
 */
module MdnsOrder {
  import opened Containers
  import opened MdnsObserver
  import opened MdnsOverlap

  // ----- what a TREL half leaves in row and log -----

  datatype Mark = Mark(kind: Kind, at: int)

  /** What a half decides, and when. */
  function MarkOf(half: Half): Mark
    requires !half.MdnsHalf?
  {
    match half
    case TrelUpsert(_, at, _, isNew) => Mark(if isNew then Added else Changed, at)
    case TrelHide(_, at) => Mark(Removed, at)
  }

  predicate SameMarks(p: seq<Half>, q: seq<Half>, id: string)
    requires OwnQueue(p, id) && OwnQueue(q, id)
  {
    |p| == |q| && forall i :: 0 <= i < |p| ==> MarkOf(p[i]) == MarkOf(q[i])
  }

  /** The advert that the halves leave in the row. */
  function LastAdvert(halves: seq<Half>): Option<Advert> {
    if halves == [] then None else
    var last := halves[|halves| - 1];
    if last.TrelUpsert? then Some(last.record.advert) else LastAdvert(halves[..|halves| - 1])
  }

  predicate AllDecide(halves: seq<Half>) {
    forall i :: 0 <= i < |halves| ==> Decides(halves[i])
  }

  function TrelLogAt(view: View, id: string): seq<Transition> {
    History(view.decided, Trel, id)
  }

  /** Nothing of the service has reached the TREL cache or log. */
  predicate Bare(view: View, id: string) {
    id !in view.trel && TrelLogAt(view, id) == []
  }

  lemma TrelHalfLog(view: View, half: Half, id: string)
    requires IsTrelHalf(half, id)
    ensures TrelLogAt(HalfStep(view, half), id) == TrelLogAt(view, id) + ListOf(HalfDecision(view, half))
  {
    HalfHistory(view, half, Trel, id);
    HalfAppends(view, half);
  }

  // ----- equal marks, equal logs and counters -----

  predicate SameCounters(a: Option<TrelService>, b: Option<TrelService>) {
    && (a.Some? <==> b.Some?)
    && (a.Some? ==> a.value.presence.(lastSeen := 0) == b.value.presence.(lastSeen := 0))
  }

  /** The two views say the same about the TREL service, but for its advert. */
  predicate Alike(v: View, w: View, id: string) {
    SameCounters(Get(v.trel, id), Get(w.trel, id)) && TrelLogAt(v, id) == TrelLogAt(w, id)
  }

  lemma SameMarkSameStep(v: View, w: View, a: Half, b: Half, id: string)
    requires IsTrelHalf(a, id) && IsTrelHalf(b, id) && Decides(a) && Decides(b) && MarkOf(a) == MarkOf(b)
    requires SameCounters(Get(v.trel, id), Get(w.trel, id))
    ensures HalfDecision(v, a) == HalfDecision(w, b)
    ensures SameCounters(Get(HalfStep(v, a).trel, id), Get(HalfStep(w, b).trel, id))
  {
  }

  lemma StepAlike(v: View, w: View, a: Half, b: Half, id: string)
    requires IsTrelHalf(a, id) && IsTrelHalf(b, id) && Decides(a) && Decides(b) && MarkOf(a) == MarkOf(b)
    requires Alike(v, w, id)
    ensures Alike(HalfStep(v, a), HalfStep(w, b), id)
  {
    SameMarkSameStep(v, w, a, b, id);
    TrelHalfLog(v, a, id);
    TrelHalfLog(w, b, id);
  }

  lemma {:induction false} DrainAlike(view: View, p: seq<Half>, q: seq<Half>, id: string)
    requires OwnQueue(p, id) && OwnQueue(q, id) && AllDecide(p) && AllDecide(q) && SameMarks(p, q, id)
    ensures Alike(Drain(view, p), Drain(view, q), id)
    decreases |p|
  {
    if p != [] {
      var n := |p| - 1;
      DrainAlike(view, p[..n], q[..n], id);
      assert IsTrelHalf(p[n], id) && IsTrelHalf(q[n], id) && Decides(p[n]) && Decides(q[n]);
      StepAlike(Drain(view, p[..n]), Drain(view, q[..n]), p[n], q[n], id);
    }
  }

  lemma AdvertAfterHalf(view: View, half: Half, id: string)
    requires IsTrelHalf(half, id)
    ensures var row, before := Get(HalfStep(view, half).trel, id), Get(view.trel, id);
            if half.TrelUpsert? then row.Some? && row.value.advert == half.record.advert
            else (row.Some? <==> before.Some?) && (row.Some? ==> row.value.advert == before.value.advert)
  {
  }

  lemma {:induction false} AdvertOfTheRow(view: View, p: seq<Half>, id: string)
    requires OwnQueue(p, id) && id !in view.trel
    ensures var row := Get(Drain(view, p).trel, id);
            (row.Some? <==> LastAdvert(p).Some?) && (row.Some? ==> Some(row.value.advert) == LastAdvert(p))
    decreases |p|
  {
    if p != [] {
      var n := |p| - 1;
      AdvertOfTheRow(view, p[..n], id);
      assert IsTrelHalf(p[n], id);
      AdvertAfterHalf(Drain(view, p[..n]), p[n], id);
    }
  }

  // ----- equal logs, equal marks -----

  predicate Begins(p: seq<Half>) {
    p == [] || p[0].TrelUpsert?
  }

  /** The transitions have these kinds and times. */
  predicate LogShows(log: seq<Transition>, p: seq<Half>, id: string)
    requires OwnQueue(p, id)
  {
    |log| == |p| && forall i :: 0 <= i < |p| ==> Mark(log[i].kind, log[i].at) == MarkOf(p[i])
  }

  lemma OneMoreMark(view: View, half: Half, id: string)
    requires IsTrelHalf(half, id) && Decides(half) && (half.TrelHide? ==> id in view.trel)
    ensures var d := HalfDecision(view, half);
            d.Some? && Mark(d.value.kind, d.value.at) == MarkOf(half) && id in HalfStep(view, half).trel
  {
  }

  lemma {:induction false} LogOfTheHalves(view: View, p: seq<Half>, id: string)
    requires Bare(view, id) && OwnQueue(p, id) && AllDecide(p) && Begins(p)
    ensures LogShows(TrelLogAt(Drain(view, p), id), p, id)
    ensures p != [] ==> id in Drain(view, p).trel
    decreases |p|
  {
    if p != [] {
      var n := |p| - 1;
      var before := Drain(view, p[..n]);
      LogOfTheHalves(view, p[..n], id);
      assert IsTrelHalf(p[n], id) && Decides(p[n]);
      OneMoreMark(before, p[n], id);
      TrelHalfLog(before, p[n], id);
    }
  }

  /** A half that hides a row before there is one decides nothing. */
  lemma {:induction false} LateBeginningsAreShort(view: View, p: seq<Half>, id: string)
    requires Bare(view, id) && OwnQueue(p, id)
    ensures |TrelLogAt(Drain(view, p), id)| <= |p|
    ensures !Begins(p) ==> |TrelLogAt(Drain(view, p), id)| < |p|
    decreases |p|
  {
    if p != [] {
      var n := |p| - 1;
      LateBeginningsAreShort(view, p[..n], id);
      assert IsTrelHalf(p[n], id);
      TrelHalfLog(Drain(view, p[..n]), p[n], id);
    }
  }

  lemma {:induction false} DrainKeepsMdnsLog(view: View, p: seq<Half>, id: string)
    requires OwnQueue(p, id)
    ensures History(Drain(view, p).decided, Mdns, id) == History(view.decided, Mdns, id)
    decreases |p|
  {
    if p != [] {
      var n := |p| - 1;
      var before := Drain(view, p[..n]);
      DrainKeepsMdnsLog(view, p[..n], id);
      assert IsTrelHalf(p[n], id);
      HalfHistory(before, p[n], Mdns, id);
      HalfAppends(before, p[n]);
      assert History(before.decided, Mdns, id) + [] == History(before.decided, Mdns, id);
    }
  }

  // ----- one queue in two orders -----

  lemma SameMdns(view: View, p: seq<Half>, q: seq<Half>, id: string)
    requires OwnQueue(p, id) && OwnQueue(q, id)
    ensures At(Drain(view, p), id).mdns == At(Drain(view, q), id).mdns
    ensures At(Drain(view, p), id).mdnsLog == At(Drain(view, q), id).mdnsLog
  {
    DrainKeepsMdns(view, p, id);
    DrainKeepsMdns(view, q, id);
    DrainKeepsMdnsLog(view, p, id);
    DrainKeepsMdnsLog(view, q, id);
  }

  /** The mirror of one order passes to another with the same marks and the same last advert. */
  lemma SameOrderMirrors(view: View, p: seq<Half>, q: seq<Half>, id: string)
    requires Bare(view, id) && OwnQueue(p, id) && OwnQueue(q, id) && AllDecide(p) && AllDecide(q)
    requires SameMarks(p, q, id) && LastAdvert(p) == LastAdvert(q) && Twins(At(Drain(view, q), id), true)
    ensures Twins(At(Drain(view, p), id), true)
  {
    SameMdns(view, p, q, id);
    DrainAlike(view, p, q, id);
    AdvertOfTheRow(view, p, id);
    AdvertOfTheRow(view, q, id);
  }

  lemma MirroredLogsAreEqual(view: View, p: seq<Half>, q: seq<Half>, id: string)
    requires OwnQueue(p, id) && OwnQueue(q, id)
    requires Twins(At(Drain(view, p), id), true) && Twins(At(Drain(view, q), id), true)
    ensures TrelLogAt(Drain(view, p), id) == TrelLogAt(Drain(view, q), id)
    ensures var a, b := Get(Drain(view, p).trel, id), Get(Drain(view, q).trel, id);
            (a.Some? <==> b.Some?) && (a.Some? ==> a.value.advert == b.value.advert)
  {
    SameMdns(view, p, q, id);
  }

  lemma LogsShowMarks(log: seq<Transition>, p: seq<Half>, q: seq<Half>, id: string)
    requires OwnQueue(p, id) && OwnQueue(q, id) && LogShows(log, p, id) && LogShows(log, q, id)
    ensures SameMarks(p, q, id)
  {
  }

  /** Both orders mirrored means the same marks and the same last advert. */
  lemma MirrorsAreSame(view: View, p: seq<Half>, q: seq<Half>, id: string)
    requires Bare(view, id) && OwnQueue(p, id) && OwnQueue(q, id) && AllDecide(p) && AllDecide(q)
    requires |p| == |q| && Begins(q) && Twins(At(Drain(view, p), id), true) && Twins(At(Drain(view, q), id), true)
    ensures SameMarks(p, q, id) && LastAdvert(p) == LastAdvert(q)
  {
    MirroredLogsAreEqual(view, p, q, id);
    LogOfTheHalves(view, q, id);
    LateBeginningsAreShort(view, p, id);
    LogOfTheHalves(view, p, id);
    LogsShowMarks(TrelLogAt(Drain(view, p), id), p, q, id);
    AdvertOfTheRow(view, p, id);
    AdvertOfTheRow(view, q, id);
  }

  // ----- runs of halves in any order -----

  /** The TREL halves of a service, in the order in which they ran. */
  function Ran(halves: seq<Half>, id: string): seq<Half> {
    if halves == [] then [] else
    var last := halves[|halves| - 1];
    Ran(halves[..|halves| - 1], id) + if IsTrelHalf(last, id) then [last] else []
  }

  /** The handlers, in the order in which they began. */
  function Starts(halves: seq<Half>): seq<Op> {
    if halves == [] then [] else
    var last := halves[|halves| - 1];
    Starts(halves[..|halves| - 1]) + if last.MdnsHalf? then [Start(last.input)] else []
  }

  /** All handlers begun, none of their TREL halves run. */
  function Begun(halves: seq<Half>, isTrel: string -> bool): Schedule {
    PerformAll(Starts(halves), isTrel)
  }

  /** The TREL halves that the handlers of a service have to run, in the order in which they began. */
  function ToRun(halves: seq<Half>, isTrel: string -> bool, id: string): seq<Half> {
    QueueOf(Begun(halves, isTrel), id)
  }

  lemma BegunGrows(halves: seq<Half>, half: Half, isTrel: string -> bool)
    ensures Begun(halves + [half], isTrel) ==
              if half.MdnsHalf? then Perform(Begun(halves, isTrel), isTrel, Start(half.input))
                  else Begun(halves, isTrel)
  {
    assert (halves + [half])[..|halves|] == halves;
    var ops := Starts(halves);
    if half.MdnsHalf? {
      assert (ops + [Start(half.input)])[..|ops|] == ops;
    } else {
      assert ops + [] == ops;
    }
  }

  lemma RanGrows(halves: seq<Half>, half: Half, id: string)
    ensures Ran(halves + [half], id) == Ran(halves, id) + if IsTrelHalf(half, id) then [half] else []
    ensures RunHalves(halves + [half]) == HalfStep(RunHalves(halves), half)
  {
    assert (halves + [half])[..|halves|] == halves;
  }

  /** The run agrees, on one service, with all handlers begun and then the halves run. */
  predicate Separated(run: View, begun: View, ran: seq<Half>, id: string) {
    OwnQueue(ran, id) && run.mdns == begun.mdns && At(run, id) == At(Drain(begun, ran), id)
  }

  lemma SeparateStart(run: View, begun: View, ran: seq<Half>, input: Input, id: string)
    requires Separated(run, begun, ran, id)
    ensures Separated(HalfStep(run, MdnsHalf(input)), HalfStep(begun, MdnsHalf(input)), ran, id)
  {
    MdnsIgnoresTrel(run, begun, input);
    if input.Id() == id {
      DrainCommutes(begun, input, ran);
      HalfDependsOnLocal(run, Drain(begun, ran), MdnsHalf(input));
    } else {
      HalfIsLocal(run, MdnsHalf(input), id);
      HalfIsLocal(begun, MdnsHalf(input), id);
      DrainDependsOnLocal(begun, HalfStep(begun, MdnsHalf(input)), ran, id);
    }
  }

  lemma SeparateOwnHalf(run: View, begun: View, ran: seq<Half>, half: Half, id: string)
    requires Separated(run, begun, ran, id) && IsTrelHalf(half, id)
    ensures Separated(HalfStep(run, half), begun, ran + [half], id)
  {
    TrelIgnoresMdns(run, run, half);
    DrainMore(begun, ran, half);
    HalfDependsOnLocal(run, Drain(begun, ran), half);
  }

  lemma SeparateOtherHalf(run: View, begun: View, ran: seq<Half>, half: Half, id: string)
    requires Separated(run, begun, ran, id) && !half.MdnsHalf? && About(half) != id
    ensures Separated(HalfStep(run, half), begun, ran, id)
  {
    TrelIgnoresMdns(run, run, half);
    HalfIsLocal(run, half, id);
  }

  lemma {:induction false} HalvesSeparate(halves: seq<Half>, isTrel: string -> bool, id: string)
    ensures Separated(RunHalves(halves), Begun(halves, isTrel).view, Ran(halves, id), id)
    decreases |halves|
  {
    if halves != [] {
      var before, half := halves[..|halves| - 1], halves[|halves| - 1];
      assert halves == before + [half];
      HalvesSeparate(before, isTrel, id);
      BegunGrows(before, half, isTrel);
      RanGrows(before, half, id);
      var begun, ran := Begun(before, isTrel).view, Ran(before, id);
      assert ran + [] == ran;
      if half.MdnsHalf? {
        SeparateStart(RunHalves(before), begun, ran, half.input, id);
      } else if About(half) == id {
        SeparateOwnHalf(RunHalves(before), begun, ran, half, id);
      } else {
        SeparateOtherHalf(RunHalves(before), begun, ran, half, id);
      }
    }
  }

  /** As the handlers leave their halves: each decides, and the first brings the row. */
  predicate Ready(s: Schedule, id: string) {
    && Bare(s.view, id) && AllDecide(QueueOf(s, id)) && Begins(QueueOf(s, id))
  }

  lemma StartLeavesBare(view: View, input: Input, id: string)
    requires Bare(view, id)
    ensures Bare(HalfStep(view, MdnsHalf(input)), id)
  {
    MdnsIgnoresTrel(view, view, input);
    HalfHistory(view, MdnsHalf(input), Trel, id);
    HalfAppends(view, MdnsHalf(input));
  }

  lemma OwnHalfDecides(view: View, isTrel: string -> bool, input: Input)
    ensures var half := TrelHalf(view, isTrel, input);
            half.Some? ==> Decides(half.value) && (half.value.TrelHide? ==> input.Id() in view.mdns)
  {
  }

  lemma QueueStaysReady(view: View, queue: seq<Half>, isTrel: string -> bool, input: Input)
    requires AllDecide(queue) && Begins(queue)
    requires queue == [] && isTrel(input.Type()) ==> input.Id() !in view.mdns
    ensures var half := TrelHalf(view, isTrel, input);
            half.Some? ==> AllDecide(queue + [half.value]) && Begins(queue + [half.value])
  {
    OwnHalfDecides(view, isTrel, input);
  }

  /** A mirrored service that has nothing in the TREL cache and no half to run is not TREL or not known. */
  lemma NothingKnown(s: Schedule, id: string)
    requires Bare(s.view, id) && WillMirror(s, id, true) && QueueOf(s, id) == []
    ensures id !in s.view.mdns
  {
    assert Drain(s.view, []) == s.view;
  }

  lemma StartKeepsReady(s: Schedule, isTrel: string -> bool, input: Input, id: string, trel: bool)
    requires Ready(s, id) && WillMirror(s, id, trel) && (input.Id() == id ==> isTrel(input.Type()) == trel)
    ensures Ready(Perform(s, isTrel, Start(input)), id)
  {
    StartLeavesBare(s.view, input, id);
    if input.Id() == id {
      if trel && QueueOf(s, id) == [] {
        NothingKnown(s, id);
      }
      QueueStaysReady(s.view, QueueOf(s, id), isTrel, input);
    }
  }

  predicate AllStart(ops: seq<Op>) {
    forall i :: 0 <= i < |ops| ==> ops[i].Start?
  }

  lemma {:induction false} StartsAreReady(ops: seq<Op>, isTrel: string -> bool, trelIds: set<string>, id: string)
    requires AllStart(ops) && StartsDetermineTrel(ops, isTrel, trelIds)
    ensures Ready(PerformAll(ops, isTrel), id)
    decreases |ops|
  {
    if ops != [] {
      var n := |ops| - 1;
      StartsAreReady(ops[..n], isTrel, trelIds, id);
      OrderedHalvesMirror(ops[..n], isTrel, trelIds);
      StartKeepsReady(PerformAll(ops[..n], isTrel), isTrel, ops[n].input, id, id in trelIds);
    }
  }

  lemma {:induction false} StartsStart(halves: seq<Half>)
    ensures AllStart(Starts(halves))
    decreases |halves|
  {
    if halves != [] {
      StartsStart(halves[..|halves| - 1]);
    }
  }

  lemma PermutedDecide(p: seq<Half>, q: seq<Half>)
    requires AllDecide(q) && multiset(p) == multiset(q)
    ensures AllDecide(p) && |p| == |q|
  {
    assert |multiset(p)| == |p| && |multiset(q)| == |q|;
    forall i | 0 <= i < |p| ensures Decides(p[i]) {
      assert p[i] in multiset(p);
      assert p[i] in q;
    }
  }

  /** The TREL halves of the service have all run, each once, in whatever order. */
  predicate AllRan(halves: seq<Half>, isTrel: string -> bool, id: string) {
    multiset(Ran(halves, id)) == multiset(ToRun(halves, isTrel, id))
  }

  lemma BegunWillMirror(halves: seq<Half>, isTrel: string -> bool, trelIds: set<string>, id: string)
    requires StartsDetermineTrel(Starts(halves), isTrel, trelIds)
    ensures Ready(Begun(halves, isTrel), id) && WillMirror(Begun(halves, isTrel), id, id in trelIds)
  {
    StartsStart(halves);
    StartsAreReady(Starts(halves), isTrel, trelIds, id);
    OrderedHalvesMirror(Starts(halves), isTrel, trelIds);
  }

  /**
   In every run of halves in any order, when all TREL halves of a TREL service have run: rows and
   transitions are mirrored if and only if, position by position, the halves that ran decide what
   the halves in the order of their handlers decide, at the same times, and the last advert is the
   same.
   */
  lemma {:induction false} AnyOrderMirrorsExactlyWhen(halves: seq<Half>, isTrel: string -> bool, trelIds: set<string>,
      id: string)
    requires StartsDetermineTrel(Starts(halves), isTrel, trelIds) && id in trelIds && AllRan(halves, isTrel, id)
    ensures var ran, inOrder := Ran(halves, id), ToRun(halves, isTrel, id);
            && OwnQueue(ran, id) && OwnQueue(inOrder, id)
            && (Twins(At(RunHalves(halves), id), true)
                <==> (SameMarks(ran, inOrder, id) && LastAdvert(ran) == LastAdvert(inOrder)))
  {
    var ran, inOrder, begun := Ran(halves, id), ToRun(halves, isTrel, id), Begun(halves, isTrel).view;
    BegunWillMirror(halves, isTrel, trelIds, id);
    HalvesSeparate(halves, isTrel, id);
    PermutedDecide(ran, inOrder);
    if Twins(At(Drain(begun, ran), id), true) {
      MirrorsAreSame(begun, ran, inOrder, id);
    }
    if SameMarks(ran, inOrder, id) && LastAdvert(ran) == LastAdvert(inOrder) {
      SameOrderMirrors(begun, ran, inOrder, id);
    }
  }
}
