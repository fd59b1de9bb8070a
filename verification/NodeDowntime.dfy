/**
 How long the health rules take a Matter node to be down: the age of the latest report saying
 "unavailable", over every run of the observer that keeps its clock.
 */
module NodeDowntime {
  import opened Containers
  import opened MatterObserver
  import Rollup = HealthRollup
  import Health = HealthEngine

  /** The cached `last_unavailable`. */
  function ClockOf(w: World, id: int): Option<int> {
    if id in w.nodes then w.nodes[id].lastUnavailable else None
  }

  predicate SaysDown(step: Step, id: int) {
    step.Reported? && step.report.id == id && step.report.available == Some(false)
  }

  function LatestAfter(before: Option<int>, step: Step, id: int): Option<int> {
    if SaysDown(step, id) then Some(step.now)
    else if step == NodeRemoved(id) then None
    else before
  }

  /** The time of the latest stored report saying "unavailable" since the node was last removed. */
  function LatestDown(steps: seq<Step>, id: int, start: Option<int>): Option<int> {
    if steps == [] then start else
    LatestAfter(LatestDown(steps[..|steps| - 1], id, start), steps[|steps| - 1], id)
  }

  // ----- exactly when the cache holds that time -----

  /** What probe runs write in the step has the cached time, or the node's own report overwrites it. */
  predicate KeepsClock(w: World, server: string, step: Step, id: int) {
    match step
    case Reported(report, _, meanwhile) =>
      report.id == id || ClockOf(PersistAll(w, server, meanwhile), id) == ClockOf(w, id)
    case GivenUp(_, meanwhile) => ClockOf(PersistAll(w, server, meanwhile), id) == ClockOf(w, id)
    case Persisted(copy) => copy.id == id ==> copy.lastUnavailable == ClockOf(w, id)
    case _ => true
  }

  lemma StepClockIff(w: World, server: string, step: Step, id: int)
    requires Mirrors(w, server)
    ensures ClockOf(Apply(w, server, step), id) == LatestAfter(ClockOf(w, id), step, id) <==>
              KeepsClock(w, server, step, id)
  {
    match step
    case Reported(report, now, meanwhile) => WritesIgnoreLog(Decide(w, report), w, server, meanwhile);
    case GivenUp(report, meanwhile) => WritesIgnoreLog(Decide(w, report), w, server, meanwhile);
    case Restarted => LoadingAgain(w, server);
    case _ =>
  }

  ghost predicate ClockTells(w: World, server: string, steps: seq<Step>, n: nat, id: int)
    requires Mirrors(w, server) && OwnCopies(steps, server) && n <= |steps|
  {
    ClockOf(Run(w, server, steps[..n]), id) == LatestDown(steps[..n], id, ClockOf(w, id))
  }

  ghost predicate ClockKept(w: World, server: string, steps: seq<Step>, n: nat, id: int)
    requires Mirrors(w, server) && OwnCopies(steps, server) && n < |steps|
  {
    KeepsClock(Run(w, server, steps[..n]), server, steps[n], id)
  }

  lemma NextClockIff(w: World, server: string, steps: seq<Step>, n: nat, id: int)
    requires Mirrors(w, server) && OwnCopies(steps, server) && n < |steps| && ClockTells(w, server, steps, n, id)
    ensures ClockTells(w, server, steps, n + 1, id) <==> ClockKept(w, server, steps, n, id)
  {
    RunStep(w, server, steps, n);
    StepClockIff(Run(w, server, steps[..n]), server, steps[n], id);
    assert steps[..n + 1][..n] == steps[..n];
  }

  lemma {:induction false} KeptClockTells(w: World, server: string, steps: seq<Step>, n: nat, id: int)
    requires Mirrors(w, server) && OwnCopies(steps, server) && n <= |steps|
    requires forall i :: 0 <= i < n ==> ClockKept(w, server, steps, i, id)
    ensures ClockTells(w, server, steps, n, id)
    decreases n
  {
    if n == 0 {
      assert steps[..0] == [];
    } else {
      KeptClockTells(w, server, steps, n - 1, id);
      NextClockIff(w, server, steps, n - 1, id);
    }
  }

  /**
   In every run: after each step the cached `last_unavailable` is the time of the latest report
   saying "unavailable", however long the node was down before it, if and only if no probe write of
   the run changes it.
   */
  lemma {:induction false} ClockIsTheLatestReport(w: World, server: string, steps: seq<Step>, id: int)
    requires Mirrors(w, server) && OwnCopies(steps, server)
    ensures (forall i :: 0 <= i <= |steps| ==> ClockTells(w, server, steps, i, id))
            <==> (forall i :: 0 <= i < |steps| ==> ClockKept(w, server, steps, i, id))
  {
    if forall i :: 0 <= i < |steps| ==> ClockKept(w, server, steps, i, id) {
      forall i | 0 <= i <= |steps| ensures ClockTells(w, server, steps, i, id) {
        KeptClockTells(w, server, steps, i, id);
      }
    }
    if forall i :: 0 <= i <= |steps| ==> ClockTells(w, server, steps, i, id) {
      forall i | 0 <= i < |steps| ensures ClockKept(w, server, steps, i, id) {
        NextClockIff(w, server, steps, i, id);
      }
    }
  }

  // ----- when the node is critical -----

  /** The stored node as the health rules read it, times in seconds. */
  predicate ReadAs(node: Node, n: Health.Node) {
    && n.nodeId == node.id && n.serverId == node.serverId && n.available == node.available
    && n.lastUnavailable == if node.lastUnavailable.Some? then Some(node.lastUnavailable.value as real) else None
  }

  predicate Observable(server: Option<Health.Server>) {
    server.Some? && server.value.availabilityAvailable
  }

  /** At least `minutes` have passed since `at`; no time at all counts as just now. */
  predicate OldEnough(at: Option<int>, now: real, minutes: nat) {
    if at.Some? then now - at.value as real >= 60.0 * minutes as real else minutes == 0
  }

  lemma AgeInMinutes(at: real, now: real, minutes: nat)
    ensures (now - at) / 60.0 >= minutes as real <==> now - at >= 60.0 * minutes as real
  {
  }

  /**
   After every run whose probe writes keep the clock, a node that is down and observable is critical
   if and only if the latest report saying "unavailable" is at least the critical minutes old. How
   long it has been down does not matter, and without such a report it is critical only for a limit
   of zero minutes.
   */
  lemma {:induction false} CriticalByTheLatestReport(
      w: World, server: string, steps: seq<Step>, id: int,
      n: Health.Node, owner: Option<Health.Server>, limits: Health.Thresholds, now: real)
    requires Mirrors(w, server) && OwnCopies(steps, server)
    requires forall i :: 0 <= i < |steps| ==> ClockKept(w, server, steps, i, id)
    requires var r := Run(w, server, steps); id in r.nodes && !r.nodes[id].available && ReadAs(r.nodes[id], n)
    requires Observable(owner)
    ensures Health.NodeHealth(n, owner, limits, now).state == Rollup.Critical
            <==> OldEnough(LatestDown(steps, id, ClockOf(w, id)), now, limits.unavailableCriticalMinutes)
  {
    KeptClockTells(w, server, steps, |steps|, id);
    assert steps[..|steps|] == steps;
    Health.NodeCritical(n, owner, limits, now);
    if n.lastUnavailable.Some? {
      AgeInMinutes(n.lastUnavailable.value, now, limits.unavailableCriticalMinutes);
    }
  }

  // ----- against the length of the outage -----

  /** When the outage that lasts at the end of the steps was first reported. */
  function OutageStart(steps: seq<Step>, id: int): Option<int> {
    if steps == [] then None else
    var before, step := OutageStart(steps[..|steps| - 1], id), steps[|steps| - 1];
    if step == NodeRemoved(id) then None
    else if !step.Reported? || step.report.id != id || step.report.available == None then before
    else if step.report.available.value then None
    else if before.Some? then before
    else Some(step.now)
  }

  predicate Reports(step: Step, id: int) {
    step.Reported? && step.report.id == id
  }

  /** The clock did not step back between reports of the node. */
  predicate SteadyClock(steps: seq<Step>, id: int) {
    forall i, j :: 0 <= i < j < |steps| && Reports(steps[i], id) && Reports(steps[j], id) ==>
        steps[i].now <= steps[j].now
  }

  lemma {:induction false} OutageStartsEarlier(steps: seq<Step>, id: int, start: Option<int>)
    requires SteadyClock(steps, id) && OutageStart(steps, id).Some?
    ensures LatestDown(steps, id, start).Some? && OutageStart(steps, id).value <= LatestDown(steps, id, start).value
    ensures exists i :: 0 <= i < |steps| && SaysDown(steps[i], id) && steps[i].now == OutageStart(steps, id).value
    decreases |steps|
  {
    var n := |steps| - 1;
    if OutageStart(steps[..n], id).Some? {
      OutageStartsEarlier(steps[..n], id, start);
      var i :| 0 <= i < n && SaysDown(steps[..n][i], id) && steps[..n][i].now == OutageStart(steps[..n], id).value;
      assert SaysDown(steps[i], id);
    } else {
      assert steps[n].report.available == Some(steps[n].report.available.value);
      assert SaysDown(steps[n], id);
    }
  }

  /** Critical nodes have been down long enough: the latest report is never older than the outage. */
  lemma {:induction false} CriticalOutagesAreOld(steps: seq<Step>, id: int, start: Option<int>, now: real, minutes: nat)
    requires SteadyClock(steps, id) && OutageStart(steps, id).Some?
    ensures OldEnough(LatestDown(steps, id, start), now, minutes) ==> OldEnough(OutageStart(steps, id), now, minutes)
  {
    OutageStartsEarlier(steps, id, start);
  }

  /**
   The converse fails: when "unavailable" is reported again, as after every reconnect, an outage of
   any length counts from that report only.
   */
  lemma {:induction false} RepeatedReportHidesTheOutage(report: Report, since: int, again: int, start: Option<int>)
    requires report.available == Some(false)
    ensures var steps := [Reported(report, since, []), Reported(report, again, [])];
            OutageStart(steps, report.id) == Some(since) && LatestDown(steps, report.id, start) == Some(again)
  {
    var steps := [Reported(report, since, []), Reported(report, again, [])];
    assert steps[..1] == [steps[0]] && steps[..1][..0] == [];
    assert OutageStart(steps[..1][..0], report.id) == None;
    assert OutageStart(steps[..1], report.id) == Some(since);
  }
}
