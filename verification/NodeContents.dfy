/**
 What the Matter observer holds of a node, told from the reports alone: availability, product,
 attribute keys and the time it was last seen, over every run.
 */
module NodeContents {
  import opened Containers
  import opened Histories
  import opened MatterObserver

  /** What is cached of one node; all `None` for an unknown one. */
  datatype View = View(
    available: Option<bool>, product: Option<string>, lastSeen: Option<int>, attributes: Option<set<string>>)

  const NOTHING := View(None, None, None, None)

  function ViewOf(w: World, id: int): View {
    if id in w.nodes then
      View(Some(w.nodes[id].available), w.nodes[id].product, Some(w.nodes[id].lastSeen), Get(w.attributeKeys, id))
    else View(None, None, None, Get(w.attributeKeys, id))
  }

  /**
   A stored report of the node is its latest word: what it leaves out stays, and a node first seen
   without an availability counts as unavailable.
   */
  function Told(before: View, step: Step, id: int): View {
    if step.Reported? && step.report.id == id then
      View(
        if step.report.available.Some? then step.report.available else Some(before.available == Some(true)),
        if step.report.product.Some? then step.report.product else before.product,
        Some(step.now),
        if step.report.attributes.Some? then step.report.attributes else before.attributes)
    else if step == NodeRemoved(id) then NOTHING
    else before
  }

  /** All reports since the node was last removed, from what was cached at the start. */
  function ToldBy(steps: seq<Step>, id: int, start: View): View {
    if steps == [] then start else
    Told(ToldBy(steps[..|steps| - 1], id, start), steps[|steps| - 1], id)
  }

  /** What probe runs write in the step leaves the view as it was, or the node's own report overwrites it. */
  predicate KeepsView(w: World, server: string, step: Step, id: int) {
    match step
    case Reported(report, _, meanwhile) =>
      report.id == id || ViewOf(PersistAll(w, server, meanwhile), id) == ViewOf(w, id)
    case GivenUp(_, meanwhile) => ViewOf(PersistAll(w, server, meanwhile), id) == ViewOf(w, id)
    case Persisted(copy) => ViewOf(Persist(w, server, copy), id) == ViewOf(w, id)
    case _ => true
  }

  lemma {:induction false} WritesKeepKeys(w: World, server: string, copies: seq<Node>)
    ensures PersistAll(w, server, copies).attributeKeys == w.attributeKeys
    decreases |copies|
  {
    if copies != [] {
      WritesKeepKeys(w, server, copies[..|copies| - 1]);
    }
  }

  lemma OwnReportTells(w: World, server: string, report: Report, now: int, meanwhile: seq<Node>)
    ensures ViewOf(Process(w, server, report, now, meanwhile), report.id) ==
              Told(ViewOf(w, report.id), Reported(report, now, meanwhile), report.id)
  {
    WritesKeepKeys(Decide(w, report), server, meanwhile);
  }

  lemma OtherReportTells(w: World, server: string, report: Report, now: int, meanwhile: seq<Node>, id: int)
    requires id != report.id
    ensures ViewOf(Process(w, server, report, now, meanwhile), id) == ViewOf(PersistAll(w, server, meanwhile), id)
  {
    WritesIgnoreLog(Decide(w, report), w, server, meanwhile);
    WritesKeepKeys(Decide(w, report), server, meanwhile);
    WritesKeepKeys(w, server, meanwhile);
  }

  lemma RemovalTells(w: World, server: string, id: int, other: int)
    requires Mirrors(w, server)
    ensures ViewOf(Remove(w, server, other), id) == if other == id then NOTHING else ViewOf(w, id)
  {
  }

  lemma StepViewIff(w: World, server: string, step: Step, id: int)
    requires Mirrors(w, server)
    ensures ViewOf(Apply(w, server, step), id) == Told(ViewOf(w, id), step, id) <==> KeepsView(w, server, step, id)
  {
    match step
    case Reported(report, now, meanwhile) =>
      if report.id == id {
        OwnReportTells(w, server, report, now, meanwhile);
      } else {
        OtherReportTells(w, server, report, now, meanwhile, id);
      }
    case GivenUp(report, meanwhile) =>
      WritesIgnoreLog(Decide(w, report), w, server, meanwhile);
      WritesKeepKeys(Decide(w, report), server, meanwhile);
      WritesKeepKeys(w, server, meanwhile);
    case NodeRemoved(other) => RemovalTells(w, server, id, other);
    case Restarted => LoadingAgain(w, server);
    case _ =>
  }

  ghost predicate ViewTells(w: World, server: string, steps: seq<Step>, n: nat, id: int)
    requires Mirrors(w, server) && OwnCopies(steps, server) && n <= |steps|
  {
    ViewOf(Run(w, server, steps[..n]), id) == ToldBy(steps[..n], id, ViewOf(w, id))
  }

  ghost predicate ViewKept(w: World, server: string, steps: seq<Step>, n: nat, id: int)
    requires Mirrors(w, server) && OwnCopies(steps, server) && n < |steps|
  {
    KeepsView(Run(w, server, steps[..n]), server, steps[n], id)
  }

  lemma NextViewIff(w: World, server: string, steps: seq<Step>, n: nat, id: int)
    requires Mirrors(w, server) && OwnCopies(steps, server) && n < |steps| && ViewTells(w, server, steps, n, id)
    ensures ViewTells(w, server, steps, n + 1, id) <==> ViewKept(w, server, steps, n, id)
  {
    RunStep(w, server, steps, n);
    StepViewIff(Run(w, server, steps[..n]), server, steps[n], id);
    assert steps[..n + 1][..n] == steps[..n];
  }

  lemma {:induction false} KeptViewTells(w: World, server: string, steps: seq<Step>, n: nat, id: int)
    requires Mirrors(w, server) && OwnCopies(steps, server) && n <= |steps|
    requires forall i :: 0 <= i < n ==> ViewKept(w, server, steps, i, id)
    ensures ViewTells(w, server, steps, n, id)
    decreases n
  {
    if n == 0 {
      assert steps[..0] == [];
    } else {
      KeptViewTells(w, server, steps, n - 1, id);
      NextViewIff(w, server, steps, n - 1, id);
    }
  }

  /**
   In every run: after each step the cached availability, product, attribute keys and last-seen time
   are what the reports said last, if and only if no probe write of the run changes them.
   */
  lemma {:induction false} CacheHoldsTheLastReport(w: World, server: string, steps: seq<Step>, id: int)
    requires Mirrors(w, server) && OwnCopies(steps, server)
    ensures (forall i :: 0 <= i <= |steps| ==> ViewTells(w, server, steps, i, id))
            <==> (forall i :: 0 <= i < |steps| ==> ViewKept(w, server, steps, i, id))
  {
    if forall i :: 0 <= i < |steps| ==> ViewKept(w, server, steps, i, id) {
      forall i | 0 <= i <= |steps| ensures ViewTells(w, server, steps, i, id) {
        KeptViewTells(w, server, steps, i, id);
      }
    }
    if forall i :: 0 <= i <= |steps| ==> ViewTells(w, server, steps, i, id) {
      forall i | 0 <= i < |steps| ensures ViewKept(w, server, steps, i, id) {
        NextViewIff(w, server, steps, i, id);
      }
    }
  }

  // ----- which transition a report decides -----

  /** A report decides "seen" for an unknown node, and a change exactly if it names the other availability. */
  lemma {:induction false} ReportDecides(w: World, server: string, report: Report, now: int, meanwhile: seq<Node>)
    ensures var before, after := Of(w.log, report.id), Of(Process(w, server, report, now, meanwhile).log, report.id);
            after == before +
              if report.id !in w.nodes then [Seen(report.available == Some(true))]
              else if report.available == Some(true) && !w.nodes[report.id].available then [Up]
              else if report.available == Some(false) && w.nodes[report.id].available then [Down]
              else []
  {
    WritesKeepLog(Decide(w, report), server, meanwhile);
    assert report.available.Some? ==> report.available == Some(report.available.value);
  }

  // ----- what probe runs wrote last -----

  function LastCopy(copies: seq<Node>, id: int): Option<Node> {
    if copies == [] then None
    else if copies[|copies| - 1].id == id then Some(copies[|copies| - 1])
    else LastCopy(copies[..|copies| - 1], id)
  }

  lemma {:induction false} LastCopyIsCached(w: World, server: string, copies: seq<Node>, id: int)
    ensures Get(PersistAll(w, server, copies).nodes, id) ==
              if LastCopy(copies, id).Some? then LastCopy(copies, id) else Get(w.nodes, id)
    decreases |copies|
  {
    if copies != [] {
      LastCopyIsCached(w, server, copies[..|copies| - 1], id);
    }
  }

  /**
   The learned paths after one step: those of the last copy written of the node; a stored report of
   the node itself undoes such writes, and finds nothing learned for a node that was unknown.
   */
  function Learned(before: Option<seq<string>>, step: Step, id: int): Option<seq<string>> {
    if step == NodeRemoved(id) then None
    else if step.Reported? && step.report.id == id then (if before.Some? then before else Some([]))
    else if LastCopy(step.Copies(), id).Some? then Some(LastCopy(step.Copies(), id).value.learned)
    else before
  }

  function LearnedBy(steps: seq<Step>, id: int, start: Option<seq<string>>): Option<seq<string>> {
    if steps == [] then start else
    Learned(LearnedBy(steps[..|steps| - 1], id, start), steps[|steps| - 1], id)
  }

  function LearnedOf(w: World, id: int): Option<seq<string>> {
    if id in w.nodes then Some(w.nodes[id].learned) else None
  }

  lemma StepLearns(w: World, server: string, step: Step, id: int)
    requires Mirrors(w, server)
    ensures LearnedOf(Apply(w, server, step), id) == Learned(LearnedOf(w, id), step, id)
  {
    match step
    case Reported(report, now, meanwhile) => LastCopyIsCached(Decide(w, report), server, meanwhile, id);
    case GivenUp(report, meanwhile) => LastCopyIsCached(Decide(w, report), server, meanwhile, id);
    case Persisted(copy) => assert LastCopy([copy][..0], id).None?;
    case Restarted => LoadingAgain(w, server);
    case _ =>
  }

  /** In every run the cache holds the learned paths that were written last and not undone. */
  lemma {:induction false} CacheHoldsTheLastWrite(w: World, server: string, steps: seq<Step>, id: int)
    requires Mirrors(w, server) && OwnCopies(steps, server)
    ensures LearnedOf(Run(w, server, steps), id) == LearnedBy(steps, id, LearnedOf(w, id))
    decreases |steps|
  {
    if steps != [] {
      var n := |steps| - 1;
      CacheHoldsTheLastWrite(w, server, steps[..n], id);
      StepLearns(Run(w, server, steps[..n]), server, steps[n], id);
    }
  }

  // ----- the connection -----

  /** What a step says of the connection, if anything. */
  function Signal(step: Step): seq<bool> {
    if step.Connected? then [true] else if step.Disconnected? then [false] else []
  }

  /** What the run said of the connection, in order. */
  function Signals(steps: seq<Step>): seq<bool> {
    if steps == [] then [] else Signals(steps[..|steps| - 1]) + Signal(steps[|steps| - 1])
  }

  /** The flag is the last of the signals, and what was recorded since `start` are their changes. */
  predicate FollowsSignals(start: World, end: World, signals: seq<bool>) {
    && Some(end.connected) == Latest(Some(start.connected), signals)
    && end.serverLog == start.serverLog + Changes(Some(start.connected), signals)
  }

  lemma StepFollows(w: World, server: string, step: Step)
    requires Mirrors(w, server) && Owned(step.Copies(), server)
    ensures FollowsSignals(w, Apply(w, server, step), Signal(step))
  {
    match step
    case Reported(report, _, meanwhile) => WritesMirror(Decide(w, report), server, meanwhile);
    case GivenUp(report, meanwhile) => WritesMirror(Decide(w, report), server, meanwhile);
    case _ =>
  }

  lemma SignalsFollow(start: World, before: World, after: World, signals: seq<bool>, more: seq<bool>)
    requires FollowsSignals(start, before, signals) && FollowsSignals(before, after, more)
    ensures FollowsSignals(start, after, signals + more)
  {
    ChangesAppend(Some(start.connected), signals, more);
    LatestAppend(Some(start.connected), signals, more);
  }

  /**
   In every run the connection is what was signalled last, and its recorded transitions are the
   signals without repetitions, from the state it started in.
   */
  lemma {:induction false} ConnectionFollowsTheSignals(w: World, server: string, steps: seq<Step>)
    requires Mirrors(w, server) && OwnCopies(steps, server)
    ensures FollowsSignals(w, Run(w, server, steps), Signals(steps))
    decreases |steps|
  {
    if steps != [] {
      var n := |steps| - 1;
      var before := Run(w, server, steps[..n]);
      ConnectionFollowsTheSignals(w, server, steps[..n]);
      StepFollows(before, server, steps[n]);
      SignalsFollow(w, before, Run(w, server, steps), Signals(steps[..n]), Signal(steps[n]));
    }
  }
}
