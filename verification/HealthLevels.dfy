/**
 What the health rules report, told from the stored fields, counts and limits alone: for every
 component a table of conditions, each with its state and reason, and the state of the environment.
 */
module HealthLevels {
  import opened Containers
  import opened HealthRollup
  import opened HealthEngine
  import Collector = OtbrCollector

  // ----- tables -----

  datatype Row = Row(holds: bool, state: State, reason: string)

  predicate Fires(table: seq<Row>, level: State) {
    exists i :: 0 <= i < |table| && table[i].holds && table[i].state == level
  }

  /** The reasons that hold at one level, in order. */
  function ReasonsIn(table: seq<Row>, level: State): seq<string> {
    if table == [] then [] else
    var row := table[|table| - 1];
    ReasonsIn(table[..|table| - 1], level) + if row.holds && row.state == level then [row.reason] else []
  }

  /** The worst level at which something holds, with all that holds at that level; healthy if nothing does. */
  function Summary(table: seq<Row>): Status {
    var level := if Fires(table, Critical) then Critical else if Fires(table, Degraded) then Degraded
                 else if Fires(table, Warning) then Warning else if Fires(table, Unknown) then Unknown else Healthy;
    Status(level, ReasonsIn(table, level))
  }

  /** No row is about health, and no reason can be given twice at one level. */
  predicate WellFormed(table: seq<Row>) {
    && (forall i :: 0 <= i < |table| ==> table[i].state != Healthy)
    && (forall i, j :: 0 <= i < j < |table| && table[i].holds && table[j].holds && table[i].state == table[j].state ==>
          table[i].reason != table[j].reason)
  }

  /** The candidates of the rows that hold. */
  function Fired(table: seq<Row>): seq<Candidate> {
    if table == [] then [] else
    var row := table[|table| - 1];
    Fired(table[..|table| - 1]) + if row.holds then [(row.state, [row.reason])] else []
  }

  lemma {:induction false} FiredConcat(a: seq<Row>, b: seq<Row>)
    ensures Fired(a + b) == Fired(a) + Fired(b)
  {
    if b == [] {
      assert a + b == a;
    } else {
      var n := |b| - 1;
      FiredConcat(a, b[..n]);
      assert (a + b)[..|a + b| - 1] == a + b[..n];
    }
  }

  lemma FiredOne(row: Row)
    ensures Fired([row]) == if row.holds then [(row.state, [row.reason])] else []
  {
    assert [row][..0] == [];
  }

  lemma FiredWhen(holds: bool, state: State, reason: string)
    ensures Fired([Row(holds, state, reason)]) == When(holds, state, reason)
  {
    FiredOne(Row(holds, state, reason));
  }

  lemma FiredGraded(count: int, warning: nat, degraded: nat, w: string, d: string)
    ensures Fired([Row(count >= degraded, Degraded, d), Row(warning <= count < degraded, Warning, w)])
         == Graded(count, warning, degraded, w, d)
  {
    var first, second := Row(count >= degraded, Degraded, d), Row(warning <= count < degraded, Warning, w);
    FiredOne(first);
    FiredOne(second);
    FiredConcat([first], [second]);
    assert [first, second] == [first] + [second];
  }

  predicate HasLevel(cs: seq<Candidate>, level: State) {
    exists c :: c in cs && c.0 == level
  }

  lemma OneMoreCandidate(cs: seq<Candidate>, c: Candidate, level: State)
    ensures ReasonsAt(AsStatuses(cs + [c]), level) ==
              ReasonsAt(AsStatuses(cs), level) + if c.0 == level then c.1 else []
  {
    assert (cs + [c])[..|cs|] == cs;
    ReasonsOfLast(AsStatuses(cs), Status(c.0, c.1), level);
  }

  lemma OneMoreLevel(cs: seq<Candidate>, c: Candidate, level: State)
    ensures HasLevel(cs + [c], level) <==> HasLevel(cs, level) || c.0 == level
  {
    assert c in cs + [c];
    assert forall d :: d in cs + [c] <==> d in cs || d == c;
  }

  lemma FiredAppend(table: seq<Row>, row: Row)
    ensures Fired(table + [row]) == if row.holds then Fired(table) + [(row.state, [row.reason])] else Fired(table)
    ensures forall level :: ReasonsIn(table + [row], level) ==
              ReasonsIn(table, level) + if row.holds && row.state == level then [row.reason] else []
  {
    assert (table + [row])[..|table|] == table;
    assert Fired(table) + [] == Fired(table);
  }

  /** The candidates have the reasons and the levels of the table. */
  predicate FiredTells(table: seq<Row>, level: State) {
    && ReasonsAt(AsStatuses(Fired(table)), level) == ReasonsIn(table, level)
    && (HasLevel(Fired(table), level) <==> Fires(table, level))
  }

  lemma FiredOnce(table: seq<Row>, row: Row, level: State)
    requires FiredTells(table, level)
    ensures FiredTells(table + [row], level)
  {
    FiredAppend(table, row);
    FiresMore(table, row, level);
    if row.holds {
      OneMoreCandidate(Fired(table), (row.state, [row.reason]), level);
      OneMoreLevel(Fired(table), (row.state, [row.reason]), level);
    } else {
      assert ReasonsIn(table, level) + [] == ReasonsIn(table, level);
    }
  }

  lemma {:induction false} FiredStatuses(table: seq<Row>, level: State)
    ensures FiredTells(table, level)
    decreases |table|
  {
    if table != [] {
      FiredStatuses(table[..|table| - 1], level);
      FiredOnce(table[..|table| - 1], table[|table| - 1], level);
      assert table == table[..|table| - 1] + [table[|table| - 1]];
    }
  }

  lemma FiresMore(table: seq<Row>, row: Row, level: State)
    ensures Fires(table + [row], level) <==> Fires(table, level) || (row.holds && row.state == level)
  {
    var all := table + [row];
    assert all[|table|] == row;
    assert forall i :: 0 <= i < |table| ==> all[i] == table[i];
  }

  predicate NoneTwice(xs: seq<string>) {
    forall i, j :: 0 <= i < j < |xs| ==> xs[i] != xs[j]
  }

  lemma {:induction false} DistinctAlready(xs: seq<string>)
    requires NoneTwice(xs)
    ensures Distinct(xs) == xs
    decreases |xs|
  {
    if xs != [] {
      DistinctAlready(xs[..|xs| - 1]);
    }
  }

  lemma OneMoreReason(xs: seq<string>, x: string)
    requires NoneTwice(xs) && x !in xs
    ensures NoneTwice(xs + [x])
  {
  }

  predicate GivenBy(table: seq<Row>, level: State, reason: string) {
    exists i :: 0 <= i < |table| && table[i].holds && table[i].state == level && table[i].reason == reason
  }

  lemma GivenEarlier(table: seq<Row>, level: State, reason: string)
    requires WellFormed(table) && table != [] && GivenBy(table[..|table| - 1], level, reason)
    ensures GivenBy(table, level, reason)
    ensures table[|table| - 1].holds && table[|table| - 1].state == level ==> table[|table| - 1].reason != reason
  {
    var before := table[..|table| - 1];
    var i :| 0 <= i < |before| && before[i].holds && before[i].state == level && before[i].reason == reason;
    assert table[i] == before[i];
  }

  lemma {:induction false} ReasonsComeFromRows(table: seq<Row>, level: State)
    requires WellFormed(table)
    ensures NoneTwice(ReasonsIn(table, level))
    ensures forall r :: r in ReasonsIn(table, level) ==> GivenBy(table, level, r)
    ensures level == Healthy ==> ReasonsIn(table, level) == []
    decreases |table|
  {
    if table != [] {
      var n := |table| - 1;
      ReasonsComeFromRows(table[..n], level);
      forall r | r in ReasonsIn(table[..n], level)
        ensures GivenBy(table, level, r) && (table[n].holds && table[n].state == level ==> table[n].reason != r)
      {
        GivenEarlier(table, level, r);
      }
      if table[n].holds && table[n].state == level {
        OneMoreReason(ReasonsIn(table[..n], level), table[n].reason);
      }
    }
  }

  lemma WorstOfCandidates(cs: seq<Candidate>, level: State)
    requires HasLevel(cs, level)
    requires forall c :: c in cs ==> AtLeastAsBad(level, c.0)
    ensures Merge(AsStatuses(cs)) == Status(level, Distinct(ReasonsAt(AsStatuses(cs), level)))
  {
    var statuses := AsStatuses(cs);
    var c :| c in cs && c.0 == level;
    var k :| 0 <= k < |cs| && cs[k] == c;
    MergeState(statuses);
    assert statuses[k] in statuses;
    var s :| s in statuses && s.state == Merge(statuses).state;
    var i :| 0 <= i < |statuses| && statuses[i] == s;
    assert cs[i] in cs;
  }

  lemma FiredIsHealthyOrNot(table: seq<Row>)
    requires WellFormed(table)
    ensures forall c :: c in Fired(table) ==> c.0 != Healthy && Fires(table, c.0)
    ensures Summary(table).state == Healthy <==> Fired(table) == []
  {
    forall c | c in Fired(table) ensures Fires(table, c.0) {
      FiredStatuses(table, c.0);
    }
    forall level | Fires(table, level) ensures Fired(table) != [] {
      FiredStatuses(table, level);
    }
    assert Fired(table) != [] ==> Fired(table)[0] in Fired(table);
  }

  /** Rules that amount to a table merge to its summary. */
  lemma {:induction false} TableMerges(table: seq<Row>)
    requires WellFormed(table)
    ensures Merge(AsStatuses(OrHealthy(Fired(table)))) == Summary(table)
  {
    var level := Summary(table).state;
    FiredIsHealthyOrNot(table);
    ReasonsComeFromRows(table, level);
    if Fired(table) == [] {
      MergeHealthy();
    } else {
      FiredStatuses(table, level);
      LevelIsWorst(table);
      WorstOfCandidates(Fired(table), level);
      DistinctAlready(ReasonsIn(table, level));
    }
  }

  lemma LevelIsWorst(table: seq<Row>)
    requires WellFormed(table) && Fired(table) != []
    ensures HasLevel(Fired(table), Summary(table).state)
    ensures forall c :: c in Fired(table) ==> AtLeastAsBad(Summary(table).state, c.0)
  {
    FiredIsHealthyOrNot(table);
    FiredStatuses(table, Summary(table).state);
  }

  lemma MergeHealthy()
    ensures Merge(AsStatuses([(Healthy, [])])) == Status(Healthy, [])
  {
    var c: Candidate := (Healthy, []);
    assert AsStatuses([c]) == [Status(Healthy, [])];
    MergeOne(Status(Healthy, []));
  }

  lemma {:induction false} NothingHolds(table: seq<Row>)
    requires forall i :: 0 <= i < |table| ==> !table[i].holds
    ensures Fired(table) == []
  {
    if table != [] {
      NothingHolds(table[..|table| - 1]);
    }
  }

  lemma FiredSplit(table: seq<Row>, first: seq<Row>, rest: seq<Row>)
    requires table == first + rest
    ensures Fired(first) == [] ==> Fired(table) == Fired(rest)
    ensures Fired(rest) == [] ==> Fired(table) == Fired(first)
  {
    FiredConcat(first, rest);
  }

  lemma SkipFirst(table: seq<Row>, k: nat)
    requires k <= |table| && forall i :: 0 <= i < k ==> !table[i].holds
    ensures Fired(table) == Fired(table[k..])
  {
    FiredSplit(table, table[..k], table[k..]);
    NothingHolds(table[..k]);
  }

  lemma SkipLast(table: seq<Row>, k: nat)
    requires k <= |table| && forall i :: k <= i < |table| ==> !table[i].holds
    ensures Fired(table) == Fired(table[..k])
  {
    FiredSplit(table, table[..k], table[k..]);
    NothingHolds(table[k..]);
  }

  lemma {:induction false} OnlyOneHolds(table: seq<Row>, i: nat)
    requires i < |table| && table[i].holds && forall j :: 0 <= j < |table| && j != i ==> !table[j].holds
    ensures Fired(table) == [(table[i].state, [table[i].reason])]
  {
    if i == |table| - 1 {
      NothingHolds(table[..i]);
    } else {
      OnlyOneHolds(table[..|table| - 1], i);
    }
  }

  lemma SomethingHolds(table: seq<Row>, i: nat)
    requires i < |table| && table[i].holds
    ensures Fired(table) != []
  {
    FiredStatuses(table, table[i].state);
    assert Fires(table, table[i].state);
  }

  lemma SingleMerges(state: State, reason: string)
    ensures Merge(AsStatuses([(state, [reason])])) == Status(state, [reason])
  {
    var c: Candidate := (state, [reason]);
    assert AsStatuses([c]) == [Status(state, [reason])];
    MergeOne(Status(state, [reason]));
    DistinctAlready([reason]);
  }

  /** A table of which one row holds. */
  lemma OneReason(table: seq<Row>, i: nat)
    requires WellFormed(table)
    requires i < |table| && table[i].holds && forall j :: 0 <= j < |table| && j != i ==> !table[j].holds
    ensures Summary(table) == Merge(AsStatuses([(table[i].state, [table[i].reason])]))
  {
    TableMerges(table);
    OnlyOneHolds(table, i);
  }

  lemma FiredThree(a: seq<Row>, b: seq<Row>, c: seq<Row>)
    ensures Fired(a + b + c) == Fired(a) + Fired(b) + Fired(c)
  {
    FiredConcat(a, b);
    FiredConcat(a + b, c);
  }

  // ----- border routers -----

  function OtbrRows(o: Otbr, limits: Thresholds): seq<Row> {
    var roles := if o.roleChanges.Some? then o.roleChanges.value else o.roleEvents;
    var disabled := o.threadState == Some("disabled");
    var up := o.reachable && !disabled;
    [Row(!o.reachable, Critical, "otbr_unreachable"),
     Row(o.reachable && disabled, Degraded, "otbr_thread_stack_disabled"),
     Row(up && o.endpointMismatch, Warning, "otbr_rest_endpoint_mismatch"),
     Row(up && o.extPanId == None && !o.datasetAvailable, Warning, "otbr_dataset_unknown"),
     Row(up && roles >= limits.roleDegraded, Degraded, "otbr_role_flapping_degraded"),
     Row(up && limits.roleWarning <= roles < limits.roleDegraded, Warning, "otbr_role_flapping_warning")]
  }

  lemma OtbrTexts(o: Otbr, limits: Thresholds)
    ensures WellFormed(OtbrRows(o, limits))
  {
    assert |"otbr_rest_endpoint_mismatch"| == 27 && |"otbr_dataset_unknown"| == 20 &&
        |"otbr_role_flapping_warning"| == 26;
  }

  lemma OtbrFired(o: Otbr, limits: Thresholds)
    requires o.reachable && o.threadState != Some("disabled")
    ensures Fired(OtbrRows(o, limits)) == SetupRules(o) + RoleRule(o, limits)
  {
    var t := OtbrRows(o, limits);
    SplitOtbr(t);
    FiredWhen(o.endpointMismatch, Warning, "otbr_rest_endpoint_mismatch");
    FiredWhen(o.extPanId == None && !o.datasetAvailable, Warning, "otbr_dataset_unknown");
    FiredGraded(RoleChanges(o), limits.roleWarning, limits.roleDegraded,
      "otbr_role_flapping_warning", "otbr_role_flapping_degraded");
  }

  lemma SplitOtbr(t: seq<Row>)
    requires |t| == 6 && !t[0].holds && !t[1].holds
    ensures Fired(t) == Fired([t[2]]) + Fired([t[3]]) + Fired([t[4], t[5]])
  {
    SkipFirst(t, 2);
    FiredThree([t[2]], [t[3]], [t[4], t[5]]);
    assert t[2..] == [t[2]] + [t[3]] + [t[4], t[5]];
  }

  /** A border router reports the worst of its conditions. */
  lemma {:induction false} OtbrReports(o: Otbr, limits: Thresholds)
    ensures OtbrHealth(o, limits) == Summary(OtbrRows(o, limits))
  {
    OtbrTexts(o, limits);
    if !o.reachable {
      OneReason(OtbrRows(o, limits), 0);
    } else if o.threadState == Some("disabled") {
      OneReason(OtbrRows(o, limits), 1);
    } else {
      TableMerges(OtbrRows(o, limits));
      OtbrFired(o, limits);
    }
  }

  // ----- Matter servers -----

  function ServerRows(s: Server): seq<Row> {
    [Row(!s.connected, Critical, "matter_server_disconnected"),
     Row(s.connected && !s.inventoryAvailable, Warning, "matter_node_inventory_unavailable"),
     Row(s.connected && s.unavailableNodes > 0, Warning, "matter_nodes_unavailable")]
  }

  lemma ServerTexts(s: Server)
    ensures WellFormed(ServerRows(s))
  {
    assert |"matter_node_inventory_unavailable"| == 33 && |"matter_nodes_unavailable"| == 24;
  }

  lemma SplitServer(t: seq<Row>)
    requires |t| == 3 && !t[0].holds
    ensures Fired(t) == Fired([t[1]]) + Fired([t[2]])
  {
    SkipFirst(t, 1);
    FiredConcat([t[1]], [t[2]]);
    assert t[1..] == [t[1]] + [t[2]];
  }

  /** A Matter server reports the worst of its conditions. */
  lemma {:induction false} ServerReports(s: Server)
    ensures ServerHealth(s) == Summary(ServerRows(s))
  {
    var t := ServerRows(s);
    ServerTexts(s);
    if !s.connected {
      OneReason(t, 0);
    } else {
      TableMerges(t);
      SplitServer(t);
      FiredWhen(!s.inventoryAvailable, Warning, "matter_node_inventory_unavailable");
      FiredWhen(s.unavailableNodes > 0, Warning, "matter_nodes_unavailable");
    }
  }

  // ----- Matter nodes -----

  function NodeRows(n: Node, server: Option<Server>, limits: Thresholds, now: real): seq<Row> {
    var observable := server.Some? && server.value.availabilityAvailable;
    var age := if n.lastUnavailable.Some? then now - n.lastUnavailable.value else 0.0;
    var expired := age >= 60.0 * limits.unavailableCriticalMinutes as real;
    var up, down := observable && n.available, observable && !n.available;
    var flaps, probed := if n.flaps.Some? then n.flaps.value else -1, up && n.probeDiagnostics && !n.probeLimited;
    var failures := if n.probeFailures.Some? then n.probeFailures.value else -1;
    [Row(!observable, Unknown, "matter_node_availability_unknown"),
     Row(down && expired, Critical, "matter_node_unavailable_critical"),
     Row(down && !expired, Degraded, "matter_node_unavailable"),
     Row(up && n.flaps.Some? && flaps >= limits.availabilityDegraded, Degraded,
       "matter_node_availability_flapping_degraded"),
     Row(up && n.flaps.Some? && limits.availabilityWarning <= flaps < limits.availabilityDegraded, Warning,
       "matter_node_availability_flapping_warning"),
     Row(probed && n.probeOk == Some(false), Warning, "matter_node_read_probe_failed"),
     Row(probed && n.probeFailures.Some? && failures >= limits.probeDegraded, Degraded,
       "matter_node_read_probe_failures_24h"),
     Row(probed && n.probeFailures.Some? && limits.probeWarning <= failures < limits.probeDegraded, Warning,
       "matter_node_read_probe_failures_24h"),
     Row(up && n.pingDiagnostics && n.pingOk == Some(false), Warning, "matter_node_ping_probe_failed")]
  }

  lemma NodeTextsDiffer()
    ensures "matter_node_availability_flapping_degraded" != "matter_node_read_probe_failures_24h"
    ensures "matter_node_availability_flapping_warning" != "matter_node_read_probe_failed"
    ensures "matter_node_availability_flapping_warning" != "matter_node_read_probe_failures_24h"
    ensures "matter_node_availability_flapping_warning" != "matter_node_ping_probe_failed"
    ensures "matter_node_read_probe_failed" != "matter_node_read_probe_failures_24h"
    ensures "matter_node_read_probe_failed" != "matter_node_ping_probe_failed"
    ensures "matter_node_read_probe_failures_24h" != "matter_node_ping_probe_failed"
  {
    assert |"matter_node_availability_flapping_degraded"| == 42 && |"matter_node_read_probe_failures_24h"| == 35;
    assert |"matter_node_availability_flapping_warning"| == 41 && |"matter_node_read_probe_failed"| == 29;
    assert |"matter_node_ping_probe_failed"| == 29;
    assert "matter_node_read_probe_failed"[12] == 'r' && "matter_node_ping_probe_failed"[12] == 'p';
  }

  lemma NodeTexts(n: Node, server: Option<Server>, limits: Thresholds, now: real)
    ensures WellFormed(NodeRows(n, server, limits, now))
  {
    NodeTextsDiffer();
  }

  lemma OldEnough(n: Node, limits: Thresholds, now: real)
    ensures var age := if n.lastUnavailable.Some? then now - n.lastUnavailable.value else 0.0;
            MinutesDown(n, now) >= limits.unavailableCriticalMinutes as real <==>
              age >= 60.0 * limits.unavailableCriticalMinutes as real
  {
  }

  lemma FlapRows(n: Node, limits: Thresholds, a: Row, b: Row)
    requires var flaps := if n.flaps.Some? then n.flaps.value else -1;
             && a == Row(n.flaps.Some? && flaps >= limits.availabilityDegraded, Degraded,
                         "matter_node_availability_flapping_degraded")
             && b == Row(n.flaps.Some? && limits.availabilityWarning <= flaps < limits.availabilityDegraded, Warning,
                         "matter_node_availability_flapping_warning")
    ensures Fired([a, b]) == FlapRule(n, limits)
  {
    if n.flaps.Some? {
      FiredGraded(n.flaps.value, limits.availabilityWarning, limits.availabilityDegraded,
        "matter_node_availability_flapping_warning", "matter_node_availability_flapping_degraded");
    } else {
      NothingHolds([a, b]);
    }
  }

  lemma ProbeRows(n: Node, limits: Thresholds, a: Row, b: Row, c: Row)
    requires var probed, failures := n.probeDiagnostics && !n.probeLimited,
                 if n.probeFailures.Some? then n.probeFailures.value else -1;
             && a == Row(probed && n.probeOk == Some(false), Warning, "matter_node_read_probe_failed")
             && b == Row(probed && n.probeFailures.Some? && failures >= limits.probeDegraded, Degraded,
                         "matter_node_read_probe_failures_24h")
             && c == Row(probed && n.probeFailures.Some? && limits.probeWarning <= failures < limits.probeDegraded,
                         Warning, "matter_node_read_probe_failures_24h")
    ensures Fired([a] + [b, c]) == ProbeRules(n, limits)
  {
    FiredConcat([a], [b, c]);
    FiredWhen(n.probeOk == Some(false), Warning, "matter_node_read_probe_failed");
    if !n.probeDiagnostics || n.probeLimited {
      NothingHolds([a] + [b, c]);
    } else if n.probeFailures.None? {
      NothingHolds([b, c]);
    } else {
      FiredGraded(n.probeFailures.value, limits.probeWarning, limits.probeDegraded,
        "matter_node_read_probe_failures_24h", "matter_node_read_probe_failures_24h");
    }
  }

  lemma NodeFired(n: Node, server: Option<Server>, limits: Thresholds, now: real)
    requires server.Some? && server.value.availabilityAvailable && n.available
    ensures Fired(NodeRows(n, server, limits, now)) == AnsweringRules(n, limits)
  {
    var t := NodeRows(n, server, limits, now);
    SplitNode(t);
    FlapRows(n, limits, t[3], t[4]);
    ProbeRows(n, limits, t[5], t[6], t[7]);
    FiredWhen(n.pingDiagnostics && n.pingOk == Some(false), Warning, "matter_node_ping_probe_failed");
  }

  lemma SplitNode(t: seq<Row>)
    requires |t| == 9 && !t[0].holds && !t[1].holds && !t[2].holds
    ensures Fired(t) == Fired([t[3], t[4]]) + Fired([t[5]] + [t[6], t[7]]) + Fired([t[8]])
  {
    SkipFirst(t, 3);
    FiredThree([t[3], t[4]], [t[5]] + [t[6], t[7]], [t[8]]);
    assert t[3..] == [t[3], t[4]] + ([t[5]] + [t[6], t[7]]) + [t[8]];
  }

  /** A Matter node reports the worst of its conditions. */
  lemma {:induction false} NodeReports(n: Node, server: Option<Server>, limits: Thresholds, now: real)
    ensures NodeHealth(n, server, limits, now) == Summary(NodeRows(n, server, limits, now))
  {
    NodeTexts(n, server, limits, now);
    OldEnough(n, limits, now);
    if server.None? || !server.value.availabilityAvailable {
      OneReason(NodeRows(n, server, limits, now), 0);
    } else if n.available {
      TableMerges(NodeRows(n, server, limits, now));
      NodeFired(n, server, limits, now);
    } else if MinutesDown(n, now) >= limits.unavailableCriticalMinutes as real {
      OneReason(NodeRows(n, server, limits, now), 1);
    } else {
      OneReason(NodeRows(n, server, limits, now), 2);
    }
  }

  // ----- mDNS and TREL -----

  function MdnsRows(config: Config, observer: Option<Observer>, flaps: nat): seq<Row> {
    var running := observer.Some? && observer.value.running;
    var limits, sees := config.limits, config.mdnsEnabled && running && observer.value.degraded == Some(false);
    [Row(!config.mdnsEnabled, Unknown, "mdns_observation_disabled"),
     Row(config.mdnsEnabled && !running, Warning, "mdns_observer_not_running"),
     Row(config.mdnsEnabled && running && observer.value.degraded == Some(true), Warning, "mdns_observation_degraded"),
     Row(config.mdnsEnabled && running && observer.value.degraded == None, Unknown,
         "mdns_observation_capability_unknown"),
     Row(sees && flaps >= limits.flapDegraded, Degraded, "mdns_service_flapping_degraded"),
     Row(sees && limits.flapWarning <= flaps < limits.flapDegraded, Warning, "mdns_service_flapping_warning")]
  }

  lemma MdnsTexts(config: Config, observer: Option<Observer>, flaps: nat)
    ensures WellFormed(MdnsRows(config, observer, flaps))
  {
  }

  lemma MdnsFired(config: Config, observer: Option<Observer>, flaps: nat, t: seq<Row>)
    requires config.mdnsEnabled && Trusted(observer) && t == MdnsRows(config, observer, flaps)
    ensures Fired(t) == FlapCandidates(flaps, config.limits)
  {
    SkipFirst(t, 4);
    FiredGraded(flaps, config.limits.flapWarning, config.limits.flapDegraded,
      "mdns_service_flapping_warning", "mdns_service_flapping_degraded");
    assert t[4..] == [t[4], t[5]];
  }

  /** mDNS reports the worst of its conditions. */
  lemma {:induction false} MdnsReports(config: Config, observer: Option<Observer>, flaps: nat)
    ensures MdnsHealth(config, observer, flaps) == Summary(MdnsRows(config, observer, flaps))
  {
    var t := MdnsRows(config, observer, flaps);
    MdnsTexts(config, observer, flaps);
    if !config.mdnsEnabled {
      OneReason(t, 0);
      SingleMerges(Unknown, "mdns_observation_disabled");
    } else if Trusted(observer) {
      TableMerges(t);
      MdnsFired(config, observer, flaps, t);
    } else {
      BlindMdns(config, observer, flaps);
    }
  }

  lemma BlindMdns(config: Config, observer: Option<Observer>, flaps: nat)
    requires config.mdnsEnabled && !Trusted(observer)
    ensures MdnsHealth(config, observer, flaps) == Summary(MdnsRows(config, observer, flaps))
  {
    MdnsTexts(config, observer, flaps);
    var t := MdnsRows(config, observer, flaps);
    if observer.None? || !observer.value.running {
      OneReason(t, 1);
    } else {
      match observer.value.degraded
      case None => OneReason(t, 3);
      case Some(degraded) => OneReason(t, 2);
    }
  }

  function TrelRows(config: Config, observer: Option<Observer>, trel: seq<TrelService>, flaps: nat): seq<Row> {
    var limits, foreign := config.limits, exists s :: s in trel && s.foreign && s.visible;
    var sees := observer.Some? && observer.value.running && observer.value.degraded == Some(false);
    var quiet := !foreign && flaps < limits.flapWarning && flaps < limits.flapDegraded;
    [Row(foreign, Warning, "foreign_trel_services_observed"),
     Row(flaps >= limits.flapDegraded, Degraded, "mdns_service_flapping_degraded"),
     Row(limits.flapWarning <= flaps < limits.flapDegraded, Warning, "mdns_service_flapping_warning"),
     Row(quiet && !config.mdnsEnabled, Unknown, "mdns_observation_disabled"),
     Row(quiet && config.mdnsEnabled && !sees, Unknown, "mdns_observation_capability_unknown")]
  }

  lemma TrelFired(config: Config, observer: Option<Observer>, trel: seq<TrelService>, flaps: nat, t: seq<Row>)
    requires t == TrelRows(config, observer, trel, flaps)
    ensures Fired(t[..3]) == TrelCandidates(config, trel, flaps)
  {
    FiredConcat([t[0]], [t[1], t[2]]);
    FiredWhen(exists s :: s in trel && s.foreign && s.visible, Warning, "foreign_trel_services_observed");
    FiredGraded(flaps, config.limits.flapWarning, config.limits.flapDegraded,
      "mdns_service_flapping_warning", "mdns_service_flapping_degraded");
    assert t[..3] == [t[0]] + [t[1], t[2]];
  }

  lemma TrelTexts(config: Config, observer: Option<Observer>, trel: seq<TrelService>, flaps: nat)
    ensures WellFormed(TrelRows(config, observer, trel, flaps))
  {
    assert |"foreign_trel_services_observed"| != |"mdns_service_flapping_warning"|;
  }

  /** TREL reports the worst of its conditions, and its own blindness only when there is nothing else. */
  lemma {:induction false} TrelReports(config: Config, observer: Option<Observer>, trel: seq<TrelService>, flaps: nat)
    ensures TrelHealth(config, observer, trel, flaps) == Summary(TrelRows(config, observer, trel, flaps))
  {
    var t := TrelRows(config, observer, trel, flaps);
    TrelTexts(config, observer, trel, flaps);
    TrelFired(config, observer, trel, flaps, t);
    if t[0].holds || t[1].holds || t[2].holds {
      TableMerges(t);
      SkipLast(t, 3);
      SomethingHolds(t[..3], if t[0].holds then 0 else if t[1].holds then 1 else 2);
    } else {
      NothingHolds(t[..3]);
      TrelQuietReports(config, observer, trel, flaps);
    }
  }

  lemma TrelQuietReports(config: Config, observer: Option<Observer>, trel: seq<TrelService>, flaps: nat)
    requires TrelCandidates(config, trel, flaps) == [] && !(exists s :: s in trel && s.foreign && s.visible)
    requires flaps < config.limits.flapWarning && flaps < config.limits.flapDegraded
    ensures TrelHealth(config, observer, trel, flaps) == Summary(TrelRows(config, observer, trel, flaps))
  {
    TrelTexts(config, observer, trel, flaps);
    if !config.mdnsEnabled {
      SingleMerges(Unknown, "mdns_observation_disabled");
      QuietTable(TrelRows(config, observer, trel, flaps), 3);
    } else if !Trusted(observer) {
      QuietTable(TrelRows(config, observer, trel, flaps), 4);
    } else {
      QuietTable(TrelRows(config, observer, trel, flaps), 5);
    }
  }

  /** A table of which row `i` holds, or none. */
  lemma QuietTable(table: seq<Row>, i: nat)
    requires WellFormed(table)
    requires forall j :: 0 <= j < |table| ==> (table[j].holds <==> j == i)
    ensures Summary(table) ==
              Merge(AsStatuses([if i < |table| then (table[i].state, [table[i].reason]) else (Healthy, [])]))
  {
    if i < |table| {
      OneReason(table, i);
    } else {
      TableMerges(table);
      NothingHolds(table);
    }
  }

  // ----- counts and lookups -----

  /** Positions of the events of either kind since `since`, initial observations left out. */
  function FlapPositions(log: seq<LogEvent>, added: string, removed: string, since: real): set<nat> {
    set i: nat | i < |log| && CountsAsFlap(log[i], added, removed, since)
  }

  predicate CountsAsFlap(e: LogEvent, added: string, removed: string, since: real) {
    (e.kind == added || e.kind == removed) && e.at >= since && !e.initial
  }

  lemma OneMoreEvent(log: seq<LogEvent>, e: LogEvent, added: string, removed: string, since: real)
    ensures |FlapPositions(log + [e], added, removed, since)| ==
              |FlapPositions(log, added, removed, since)| + if CountsAsFlap(e, added, removed, since) then 1 else 0
  {
    var all, before := log + [e], FlapPositions(log, added, removed, since);
    assert forall i: nat :: i < |log| ==> all[i] == log[i];
    if CountsAsFlap(e, added, removed, since) {
      assert FlapPositions(all, added, removed, since) == before + {|log|};
    } else {
      assert FlapPositions(all, added, removed, since) == before;
    }
  }

  lemma {:induction false} FlapsArePositions(log: seq<LogEvent>, added: string, removed: string, since: real)
    ensures Flaps(log, [added, removed], since) == |FlapPositions(log, added, removed, since)|
  {
    if log == [] {
      assert FlapPositions(log, added, removed, since) == {};
    } else {
      FlapsArePositions(log[..|log| - 1], added, removed, since);
      OneMoreEvent(log[..|log| - 1], log[|log| - 1], added, removed, since);
      assert log == log[..|log| - 1] + [log[|log| - 1]];
    }
  }

  /** The first stored border router with an id. */
  predicate FirstOtbr(otbrs: seq<Otbr>, id: string, o: Otbr) {
    exists i :: 0 <= i < |otbrs| && otbrs[i] == o && o.id == id && forall j :: 0 <= j < i ==> otbrs[j].id != id
  }

  predicate FirstServer(servers: seq<Server>, id: string, s: Server) {
    exists i :: 0 <= i < |servers| && servers[i] == s && s.id == id && forall j :: 0 <= j < i ==> servers[j].id != id
  }

  /** A configured border router is judged by its first stored state, a server likewise, a node by the last server. */
  lemma {:induction false} FoundOtbr(otbrs: seq<Otbr>, id: string)
    ensures FindOtbr(otbrs, id).None? <==> forall i :: 0 <= i < |otbrs| ==> otbrs[i].id != id
    ensures FindOtbr(otbrs, id).Some? ==> FirstOtbr(otbrs, id, FindOtbr(otbrs, id).value)
  {
    if otbrs != [] && otbrs[0].id != id {
      FoundOtbr(otbrs[1..], id);
      if FindOtbr(otbrs[1..], id).Some? {
        var o := FindOtbr(otbrs[1..], id).value;
        var i :| 0 <= i < |otbrs| - 1 && otbrs[1..][i] == o && forall j :: 0 <= j < i ==> otbrs[1..][j].id != id;
        assert otbrs[i + 1] == o;
        forall j | 0 <= j < i + 1 ensures otbrs[j].id != id {
          assert j > 0 ==> otbrs[1..][j - 1] == otbrs[j];
        }
      } else {
        forall i | 0 <= i < |otbrs| ensures otbrs[i].id != id {
          assert i > 0 ==> otbrs[1..][i - 1] == otbrs[i];
        }
      }
    }
  }

  lemma {:induction false} FoundServer(servers: seq<Server>, id: string)
    ensures FindServer(servers, id).None? <==> forall i :: 0 <= i < |servers| ==> servers[i].id != id
    ensures FindServer(servers, id).Some? ==> FirstServer(servers, id, FindServer(servers, id).value)
  {
    if servers != [] && servers[0].id != id {
      FoundServer(servers[1..], id);
      if FindServer(servers[1..], id).Some? {
        var s := FindServer(servers[1..], id).value;
        var i :| 0 <= i < |servers| - 1 && servers[1..][i] == s && forall j :: 0 <= j < i ==> servers[1..][j].id != id;
        assert servers[i + 1] == s;
        forall j | 0 <= j < i + 1 ensures servers[j].id != id {
          assert j > 0 ==> servers[1..][j - 1] == servers[j];
        }
      } else {
        forall i | 0 <= i < |servers| ensures servers[i].id != id {
          assert i > 0 ==> servers[1..][i - 1] == servers[i];
        }
      }
    }
  }

  lemma {:induction false} FoundLastServer(servers: seq<Server>, id: string)
    ensures LastServer(servers, id).None? <==> forall i :: 0 <= i < |servers| ==> servers[i].id != id
    ensures LastServer(servers, id).Some? ==>
              exists i :: 0 <= i < |servers| && servers[i] == LastServer(servers, id).value && servers[i].id == id
                          && forall j :: i < j < |servers| ==> servers[j].id != id
  {
    if servers != [] {
      FoundLastServer(servers[..|servers| - 1], id);
    }
  }

  /** A border router is on a network: configured, its last stored state reachable, with an extended PAN id. */
  predicate OnExtPanId(config: Config, otbrs: seq<Otbr>, i: nat, ext: string)
    requires i < |otbrs|
  {
    && otbrs[i].id in config.otbrs && (forall j :: i < j < |otbrs| ==> otbrs[j].id != otbrs[i].id)
    && otbrs[i].reachable && otbrs[i].extPanId == Some(ext) && ext != ""
  }

  predicate IsLast(otbrs: seq<Otbr>, id: string, i: nat) {
    i < |otbrs| && otbrs[i].id == id && forall j :: i < j < |otbrs| ==> otbrs[j].id != id
  }

  lemma {:induction false} LastById(otbrs: seq<Otbr>, id: string) returns (i: nat)
    ensures if id in ById(otbrs) then IsLast(otbrs, id, i) && ById(otbrs)[id] == otbrs[i]
            else forall j :: 0 <= j < |otbrs| ==> otbrs[j].id != id
  {
    i := |otbrs|;
    if otbrs != [] {
      var n := |otbrs| - 1;
      i := LastById(otbrs[..n], id);
      ByIdMore(otbrs[..n], otbrs[n]);
      assert otbrs == otbrs[..n] + [otbrs[n]];
      if otbrs[n].id == id {
        i := n;
      } else if id in ById(otbrs[..n]) {
        StillLast(otbrs[..n], otbrs[n], id, i);
      }
    }
  }

  lemma ByIdMore(otbrs: seq<Otbr>, o: Otbr)
    ensures ById(otbrs + [o]) == ById(otbrs)[o.id := o]
  {
    assert (otbrs + [o])[..|otbrs|] == otbrs;
  }

  lemma StillLast(otbrs: seq<Otbr>, o: Otbr, id: string, i: nat)
    requires IsLast(otbrs, id, i) && o.id != id
    ensures IsLast(otbrs + [o], id, i) && (otbrs + [o])[i] == otbrs[i]
  {
  }

  /** The extended PAN ids that the rules see. */
  lemma {:induction false} SeenExtPanIds(config: Config, otbrs: seq<Otbr>, ext: string)
    ensures ext in ExtPanIds(config, otbrs) <==> exists i: nat :: i < |otbrs| && OnExtPanId(config, otbrs, i, ext)
  {
    if ext in ExtPanIds(config, otbrs) {
      var id :| id in ConfiguredIds(config, otbrs) && OnNetwork(ById(otbrs)[id]) &&
          ById(otbrs)[id].extPanId.value == ext;
      var i := LastById(otbrs, id);
      assert OnExtPanId(config, otbrs, i, ext);
    }
    if i: nat :| i < |otbrs| && OnExtPanId(config, otbrs, i, ext) {
      var k := LastById(otbrs, otbrs[i].id);
      assert k == i;
      assert ById(otbrs)[otbrs[i].id] == otbrs[i];
    }
  }

  // ----- the environment -----

  /** Rows of the table of a configured border router; one that is not stored is unknown. */
  function ConfiguredOtbrRows(config: Config, stored: Stored, i: nat): seq<Row>
    requires i < |config.otbrs|
  {
    var found := FindOtbr(stored.otbrs, config.otbrs[i]);
    if found.Some? then OtbrRows(found.value, config.limits) else [Row(true, Unknown, "otbr_not_observed")]
  }

  function ConfiguredServerRows(config: Config, stored: Stored, i: nat): seq<Row>
    requires i < |config.servers|
  {
    var found := FindServer(stored.servers, config.servers[i]);
    if found.Some? then ServerRows(found.value) else [Row(true, Unknown, "matter_server_not_observed")]
  }

  function StoredNodeRows(config: Config, stored: Stored, now: real, i: nat): seq<Row>
    requires i < |stored.nodes|
  {
    NodeRows(stored.nodes[i], LastServer(stored.servers, stored.nodes[i].serverId), config.limits, now)
  }

  /** The flaps of the last hour. */
  function MdnsFlaps(stored: Stored, now: real): nat {
    |FlapPositions(stored.log, "mdns.service_added", "mdns.service_removed", now - 3600.0)|
  }

  function TrelFlaps(stored: Stored, now: real): nat {
    |FlapPositions(stored.log, "trel.service_added", "trel.service_removed", now - 3600.0)|
  }

  lemma OneRowSummary(reason: string)
    ensures Summary([Row(true, Unknown, reason)]) == Status(Unknown, [reason])
  {
    var t := [Row(true, Unknown, reason)];
    OneReason(t, 0);
    SingleMerges(Unknown, reason);
  }

  /** Every component of the report is the summary of its table. */
  lemma {:induction false} ComponentsReport(config: Config, stored: Stored, now: real)
    ensures var r := ReportOf(config, stored, now);
            && |r.otbrs| == |config.otbrs| && |r.servers| == |config.servers| && |r.nodes| == |stored.nodes|
            && (forall i :: 0 <= i < |config.otbrs| ==> r.otbrs[i] == Summary(ConfiguredOtbrRows(config, stored, i)))
            && (forall i :: 0 <= i < |config.servers| ==>
                  r.servers[i] == Summary(ConfiguredServerRows(config, stored, i)))
            && (forall i :: 0 <= i < |stored.nodes| ==> r.nodes[i] == Summary(StoredNodeRows(config, stored, now, i)))
            && r.mdns == Summary(MdnsRows(config, stored.observer, MdnsFlaps(stored, now)))
            && r.trel == Summary(TrelRows(config, stored.observer, stored.trel, TrelFlaps(stored, now)))
  {
    var r := ReportOf(config, stored, now);
    forall i | 0 <= i < |config.otbrs| ensures r.otbrs[i] == Summary(ConfiguredOtbrRows(config, stored, i)) {
      OtbrComponent(config, stored, i);
    }
    forall i | 0 <= i < |config.servers| ensures r.servers[i] == Summary(ConfiguredServerRows(config, stored, i)) {
      ServerComponent(config, stored, i);
    }
    forall i | 0 <= i < |stored.nodes| ensures r.nodes[i] == Summary(StoredNodeRows(config, stored, now, i)) {
      NodeReports(stored.nodes[i], LastServer(stored.servers, stored.nodes[i].serverId), config.limits, now);
    }
    FlapsArePositions(stored.log, "mdns.service_added", "mdns.service_removed", now - 3600.0);
    FlapsArePositions(stored.log, "trel.service_added", "trel.service_removed", now - 3600.0);
    MdnsReports(config, stored.observer, MdnsFlaps(stored, now));
    TrelReports(config, stored.observer, stored.trel, TrelFlaps(stored, now));
  }

  lemma OtbrComponent(config: Config, stored: Stored, i: nat)
    requires i < |config.otbrs|
    ensures ConfiguredOtbr(stored.otbrs, config.limits, config.otbrs[i]) ==
              Summary(ConfiguredOtbrRows(config, stored, i))
  {
    match FindOtbr(stored.otbrs, config.otbrs[i])
    case None => OneRowSummary("otbr_not_observed");
    case Some(o) => OtbrReports(o, config.limits);
  }

  lemma ServerComponent(config: Config, stored: Stored, i: nat)
    requires i < |config.servers|
    ensures ConfiguredServer(stored.servers, config.servers[i]) == Summary(ConfiguredServerRows(config, stored, i))
  {
    match FindServer(stored.servers, config.servers[i])
    case None => OneRowSummary("matter_server_not_observed");
    case Some(s) => ServerReports(s);
  }

  function NetworkRows(n: Network, otbrs: seq<Otbr>): seq<Row> {
    var sourced := exists o :: o in otbrs && o.reachable && o.id in n.sources;
    [Row(!n.visible, Unknown, "thread_network_not_visible"),
     Row(n.visible && n.classification == Collector.ObservedOther, Warning, "observed_other_thread_network_visible"),
     Row(n.visible && n.classification == Collector.Unknown, Warning, "primary_thread_network_unknown"),
     Row(n.visible && n.classification == Collector.Primary && !sourced, Warning,
       "thread_network_source_otbrs_unreachable")]
  }

  lemma NetworkTexts(n: Network, otbrs: seq<Otbr>)
    ensures WellFormed(NetworkRows(n, otbrs))
  {
  }

  /** A Thread network reports the condition it is in, if any. */
  lemma {:induction false} NetworkReports(n: Network, otbrs: seq<Otbr>)
    ensures NetworkHealth(n, otbrs) == Summary(NetworkRows(n, otbrs))
  {
    NetworkTexts(n, otbrs);
    if !n.visible {
      QuietTable(NetworkRows(n, otbrs), 0);
    } else {
      VisibleNetworkReports(n, otbrs);
    }
  }

  lemma VisibleNetworkReports(n: Network, otbrs: seq<Otbr>)
    requires n.visible
    ensures NetworkHealth(n, otbrs) == Summary(NetworkRows(n, otbrs))
  {
    NetworkTexts(n, otbrs);
    match n.classification
    case ObservedOther => QuietTable(NetworkRows(n, otbrs), 1);
    case Unknown => QuietTable(NetworkRows(n, otbrs), 2);
    case Primary => PrimaryReports(n, otbrs);
  }

  lemma PrimaryReports(n: Network, otbrs: seq<Otbr>)
    requires n.visible && n.classification == Collector.Primary
    ensures NetworkHealth(n, otbrs) == Summary(NetworkRows(n, otbrs))
  {
    NetworkTexts(n, otbrs);
    if exists o :: o in otbrs && o.reachable && o.id in n.sources {
      QuietTable(NetworkRows(n, otbrs), 4);
    } else {
      QuietTable(NetworkRows(n, otbrs), 3);
    }
  }

  /** The report lists every stored network with its own summary. */
  lemma {:induction false} NetworksAreReported(config: Config, stored: Stored, now: real)
    ensures var networks := ReportOf(config, stored, now).networks;
            && |networks| == |stored.networks|
            && forall i :: 0 <= i < |networks| ==> networks[i] == Summary(NetworkRows(stored.networks[i], stored.otbrs))
  {
    var networks := ReportOf(config, stored, now).networks;
    forall i | 0 <= i < |networks| ensures networks[i] == Summary(NetworkRows(stored.networks[i], stored.otbrs)) {
      NetworkReports(stored.networks[i], stored.otbrs);
    }
  }

  // ----- the environment's state and reasons -----

  function OtbrTables(config: Config, stored: Stored): seq<seq<Row>> {
    seq(|config.otbrs|, i requires 0 <= i < |config.otbrs| => ConfiguredOtbrRows(config, stored, i))
  }

  function ServerTables(config: Config, stored: Stored): seq<seq<Row>> {
    seq(|config.servers|, i requires 0 <= i < |config.servers| => ConfiguredServerRows(config, stored, i))
  }

  function NodeTables(config: Config, stored: Stored, now: real): seq<seq<Row>> {
    seq(|stored.nodes|, i requires 0 <= i < |stored.nodes| => StoredNodeRows(config, stored, now, i))
  }

  /** "Observed other" networks warn together, visible or not. */
  function OtherTables(networks: seq<Network>): seq<seq<Row>> {
    if exists n :: n in networks && n.classification == Collector.ObservedOther
    then [[Row(true, Warning, "observed_other_thread_network_visible")]] else []
  }

  function DisagreementRows(config: Config, stored: Stored): seq<Row> {
    [Row(|ExtPanIds(config, stored.otbrs)| >= 2, Degraded, "configured_otbrs_disagree_on_ext_pan_id")]
  }

  function PrimaryRows(config: Config, stored: Stored): seq<Row> {
    var ids := ExtPanIds(config, stored.otbrs);
    var unknown := exists n :: n in stored.networks && n.classification == Collector.Unknown && n.visible;
    [Row(config.otbrs != [] && (|ids| >= 2 || (ids == {} && unknown)), Warning, "primary_thread_network_unknown")]
  }

  /** The tables of everything that enters the environment; Thread networks of their own do not. */
  function AllTables(config: Config, stored: Stored, now: real): seq<seq<Row>> {
    OtbrTables(config, stored) + ServerTables(config, stored) + NodeTables(config, stored, now)
    + OtherTables(stored.networks)
    + [MdnsRows(config, stored.observer, MdnsFlaps(stored, now)),
       TrelRows(config, stored.observer, stored.trel, TrelFlaps(stored, now)),
       DisagreementRows(config, stored), PrimaryRows(config, stored)]
  }

  /** The statuses are the summaries of the tables, in whatever order. */
  predicate Summarises(statuses: seq<Status>, tables: seq<seq<Row>>) {
    StatusSet(statuses) == SummarySet(tables)
  }

  function StatusSet(statuses: seq<Status>): set<Status> {
    set s | s in statuses
  }

  function SummarySet(tables: seq<seq<Row>>): set<Status> {
    set t | t in tables :: Summary(t)
  }

  lemma SummaryIsGiven(statuses: seq<Status>, tables: seq<seq<Row>>, t: seq<Row>)
    requires Summarises(statuses, tables) && t in tables
    ensures Summary(t) in statuses
  {
    assert Summary(t) in SummarySet(tables);
  }

  lemma StatusIsSummary(statuses: seq<Status>, tables: seq<seq<Row>>, s: Status) returns (t: seq<Row>)
    requires Summarises(statuses, tables) && s in statuses
    ensures t in tables && Summary(t) == s
  {
    assert s in StatusSet(statuses);
    t :| t in tables && Summary(t) == s;
  }

  lemma SummariseEach(statuses: seq<Status>, tables: seq<seq<Row>>)
    requires |statuses| == |tables| && forall i :: 0 <= i < |statuses| ==> statuses[i] == Summary(tables[i])
    ensures Summarises(statuses, tables)
  {
    forall s | s in statuses ensures s in SummarySet(tables) {
      var i :| 0 <= i < |statuses| && statuses[i] == s;
      assert tables[i] in tables;
    }
    forall t | t in tables ensures Summary(t) in statuses {
      var i :| 0 <= i < |tables| && tables[i] == t;
      assert statuses[i] in statuses;
    }
  }

  lemma SummariseBoth(a: seq<Status>, x: seq<seq<Row>>, b: seq<Status>, y: seq<seq<Row>>)
    requires Summarises(a, x) && Summarises(b, y)
    ensures Summarises(a + b, x + y)
  {
    assert StatusSet(a + b) == StatusSet(a) + StatusSet(b);
    assert SummarySet(x + y) == SummarySet(x) + SummarySet(y);
  }

  lemma OneRow(holds: bool, state: State, reason: string)
    requires state != Healthy
    ensures Summary([Row(holds, state, reason)]) == if holds then Status(state, [reason]) else Status(Healthy, [])
  {
    QuietTable([Row(holds, state, reason)], if holds then 0 else 1);
    SingleMerges(state, reason);
    MergeHealthy();
  }

  lemma OthersSummarise(networks: seq<Network>)
    ensures Summarises(OtherNetworks(networks), OtherTables(networks))
  {
    var others := OtherNetworks(networks);
    OneRow(true, Warning, "observed_other_thread_network_visible");
    if others != [] {
      assert others[0] in others;
      assert StatusSet(others) == {OTHER_NETWORK};
      assert OtherTables(networks)[0] in OtherTables(networks);
    }
  }

  lemma DisagreementReports(config: Config, stored: Stored)
    ensures DisagreementHealth(config, stored.otbrs) == Summary(DisagreementRows(config, stored))
  {
    IdsComeFromReachable(config, stored.otbrs);
    OneRow(|ExtPanIds(config, stored.otbrs)| >= 2, Degraded, "configured_otbrs_disagree_on_ext_pan_id");
  }

  lemma PrimaryUnknownReports(config: Config, stored: Stored)
    ensures PrimaryUnknownHealth(config, stored.otbrs, stored.networks) == Summary(PrimaryRows(config, stored))
  {
    OneRow(PrimaryRows(config, stored)[0].holds, Warning, "primary_thread_network_unknown");
  }

  lemma InputsSummarise(config: Config, stored: Stored, now: real)
    ensures Summarises(EnvironmentStatuses(config, stored, Components(config, stored, now)),
                       AllTables(config, stored, now))
  {
    var r, parts := ReportOf(config, stored, now), Components(config, stored, now);
    OtbrsSummarise(config, stored);
    ServersSummarise(config, stored);
    NodesSummarise(config, stored, now);
    OthersSummarise(stored.networks);
    SiteSummarises(config, stored, now);
    SummariseFive(parts.otbrs, OtbrTables(config, stored), parts.servers, ServerTables(config, stored),
      parts.nodes, NodeTables(config, stored, now), OtherNetworks(stored.networks), OtherTables(stored.networks),
      [parts.mdns, parts.trel, DisagreementHealth(config, stored.otbrs),
       PrimaryUnknownHealth(config, stored.otbrs, stored.networks)],
      [MdnsRows(config, stored.observer, MdnsFlaps(stored, now)),
       TrelRows(config, stored.observer, stored.trel, TrelFlaps(stored, now)),
       DisagreementRows(config, stored), PrimaryRows(config, stored)]);
  }

  lemma OtbrsSummarise(config: Config, stored: Stored)
    ensures Summarises(OtbrList(config.otbrs, stored.otbrs, config.limits), OtbrTables(config, stored))
  {
    var list, tables := OtbrList(config.otbrs, stored.otbrs, config.limits), OtbrTables(config, stored);
    forall i | 0 <= i < |list| ensures list[i] == Summary(tables[i]) {
      OtbrComponent(config, stored, i);
    }
    SummariseEach(list, tables);
  }

  lemma ServersSummarise(config: Config, stored: Stored)
    ensures Summarises(ServerList(config.servers, stored.servers), ServerTables(config, stored))
  {
    var list, tables := ServerList(config.servers, stored.servers), ServerTables(config, stored);
    forall i | 0 <= i < |list| ensures list[i] == Summary(tables[i]) {
      ServerComponent(config, stored, i);
    }
    SummariseEach(list, tables);
  }

  lemma NodesSummarise(config: Config, stored: Stored, now: real)
    ensures Summarises(NodeList(stored.nodes, stored.servers, config.limits, now), NodeTables(config, stored, now))
  {
    var list, tables := NodeList(stored.nodes, stored.servers, config.limits, now), NodeTables(config, stored, now);
    forall i | 0 <= i < |list| ensures list[i] == Summary(tables[i]) {
      NodeReports(stored.nodes[i], LastServer(stored.servers, stored.nodes[i].serverId), config.limits, now);
    }
    SummariseEach(list, tables);
  }

  lemma SummariseFive(
      a: seq<Status>, v: seq<seq<Row>>, b: seq<Status>, w: seq<seq<Row>>, c: seq<Status>, x: seq<seq<Row>>,
      d: seq<Status>, y: seq<seq<Row>>, e: seq<Status>, z: seq<seq<Row>>)
    requires Summarises(a, v) && Summarises(b, w) && Summarises(c, x) && Summarises(d, y) && Summarises(e, z)
    ensures Summarises(a + b + c + d + e, v + w + x + y + z)
  {
    SummariseBoth(a, v, b, w);
    SummariseBoth(a + b, v + w, c, x);
    SummariseBoth(a + b + c, v + w + x, d, y);
    SummariseBoth(a + b + c + d, v + w + x + y, e, z);
  }

  lemma SiteSummarises(config: Config, stored: Stored, now: real)
    ensures var parts := Components(config, stored, now);
            Summarises(
              [parts.mdns, parts.trel, DisagreementHealth(config, stored.otbrs),
               PrimaryUnknownHealth(config, stored.otbrs, stored.networks)],
              [MdnsRows(config, stored.observer, MdnsFlaps(stored, now)),
               TrelRows(config, stored.observer, stored.trel, TrelFlaps(stored, now)),
               DisagreementRows(config, stored), PrimaryRows(config, stored)])
  {
    var parts := Components(config, stored, now);
    ComponentsReport(config, stored, now);
    DisagreementReports(config, stored);
    PrimaryUnknownReports(config, stored);
    SummariseFour(
      MdnsRows(config, stored.observer, MdnsFlaps(stored, now)),
      TrelRows(config, stored.observer, stored.trel, TrelFlaps(stored, now)),
      DisagreementRows(config, stored), PrimaryRows(config, stored));
  }

  lemma SummariseFour(a: seq<Row>, b: seq<Row>, c: seq<Row>, d: seq<Row>)
    ensures Summarises([Summary(a), Summary(b), Summary(c), Summary(d)], [a, b, c, d])
  {
    SummariseEach([Summary(a), Summary(b), Summary(c), Summary(d)], [a, b, c, d]);
  }

  predicate SomeFires(tables: seq<seq<Row>>, level: State) {
    exists t :: t in tables && Fires(t, level)
  }

  /** The worst level at which any row of any table holds. */
  function WorstLevel(tables: seq<seq<Row>>): State {
    if SomeFires(tables, Critical) then Critical else if SomeFires(tables, Degraded) then Degraded
    else if SomeFires(tables, Warning) then Warning else if SomeFires(tables, Unknown) then Unknown else Healthy
  }

  lemma SummaryCovers(table: seq<Row>, level: State)
    requires Fires(table, level)
    ensures AtLeastAsBad(Summary(table).state, level)
  {
  }

  lemma SummaryFires(table: seq<Row>)
    ensures Summary(table).state != Healthy ==> Fires(table, Summary(table).state)
  {
  }

  lemma MergedTables(statuses: seq<Status>, tables: seq<seq<Row>>)
    requires statuses != [] && Summarises(statuses, tables)
    ensures Merge(statuses).state == WorstLevel(tables)
  {
    MergeState(statuses);
    forall level | SomeFires(tables, level) ensures AtLeastAsBad(Merge(statuses).state, level) {
      var t :| t in tables && Fires(t, level);
      SummaryCovers(t, level);
      SummaryIsGiven(statuses, tables, t);
    }
    var s :| s in statuses && s.state == Merge(statuses).state;
    var t := StatusIsSummary(statuses, tables, s);
    SummaryFires(t);
  }

  /**
   The environment's state, from the stored fields, counts and limits: the worst level at which any
   row of any table holds, and healthy when none does.
   */
  lemma {:induction false} EnvironmentReports(config: Config, stored: Stored, now: real)
    ensures ReportOf(config, stored, now).environment.state == WorstLevel(AllTables(config, stored, now))
  {
    InsufficientKeepsTheState(config, stored, now);
    InputsSummarise(config, stored, now);
    MergedTables(EnvironmentStatuses(config, stored, Components(config, stored, now)), AllTables(config, stored, now));
  }

  /** Some status at the level gives the reason. */
  predicate Gives(statuses: seq<Status>, level: State, reason: string) {
    exists s :: s in statuses && s.state == level && reason in s.reasons
  }

  lemma {:induction false} ReasonsAreGiven(statuses: seq<Status>, level: State, reason: string)
    ensures reason in ReasonsAt(statuses, level) <==> Gives(statuses, level, reason)
    decreases |statuses|
  {
    if statuses != [] {
      var before, last := statuses[..|statuses| - 1], statuses[|statuses| - 1];
      ReasonsAreGiven(before, level, reason);
      assert forall s :: s in statuses <==> s in before || s == last;
    }
  }

  lemma MergedReasons(statuses: seq<Status>, reason: string)
    requires statuses != []
    ensures reason in Merge(statuses).reasons <==> Gives(statuses, Merge(statuses).state, reason)
  {
    var level := Merge(statuses).state;
    DistinctMembers(ReasonsAt(statuses, level));
    ReasonsAreGiven(statuses, level, reason);
  }

  /** The reason is among those of a table whose worst level is this one. */
  predicate TableGives(tables: seq<seq<Row>>, level: State, reason: string) {
    exists t :: t in tables && Summary(t).state == level && reason in Summary(t).reasons
  }

  lemma TablesGive(statuses: seq<Status>, tables: seq<seq<Row>>, level: State, reason: string)
    requires Summarises(statuses, tables)
    ensures Gives(statuses, level, reason) <==> TableGives(tables, level, reason)
  {
    if Gives(statuses, level, reason) {
      var s :| s in statuses && s.state == level && reason in s.reasons;
      var t := StatusIsSummary(statuses, tables, s);
    }
    if TableGives(tables, level, reason) {
      var t :| t in tables && Summary(t).state == level && reason in Summary(t).reasons;
      SummaryIsGiven(statuses, tables, t);
    }
  }

  /** Nothing is configured, nothing is seen, and nothing happened in the last day. */
  predicate NothingToGoBy(config: Config, stored: Stored, now: real) {
    && config.otbrs == [] && config.servers == [] && !config.mdnsEnabled && stored.nodes == []
    && (forall o :: o in stored.otbrs ==> !o.reachable) && (forall s :: s in stored.servers ==> !s.connected)
    && (forall n :: n in stored.networks ==> !n.visible)
    && (forall t :: t in stored.trel && t.foreign ==> !t.visible)
    && (forall e :: e in stored.log ==> now - e.at > 86400.0)
  }

  /**
   The environment's reasons: those that the tables give at its level, and "insufficient data" when
   there is nothing to go by.
   */
  lemma {:induction false} EnvironmentReasons(config: Config, stored: Stored, now: real, reason: string)
    ensures var environment, tables := ReportOf(config, stored, now).environment, AllTables(config, stored, now);
            reason in environment.reasons <==>
              || TableGives(tables, environment.state, reason)
              || (NothingToGoBy(config, stored, now) && environment.state == Unknown && reason == "insufficient_data")
  {
    var statuses := EnvironmentStatuses(config, stored, Components(config, stored, now));
    var merged := Merge(statuses);
    InputsSummarise(config, stored, now);
    MergedReasons(statuses, reason);
    TablesGive(statuses, AllTables(config, stored, now), merged.state, reason);
    InsufficientKeepsTheState(config, stored, now);
    MeansNothingToGoBy(config, stored, now);
    if InsufficientData(config, stored, now) {
      MergedReasons([merged, INSUFFICIENT], reason);
      GivenByTwo(merged, INSUFFICIENT, merged.state, reason);
    }
  }

  lemma MeansNothingToGoBy(config: Config, stored: Stored, now: real)
    ensures InsufficientData(config, stored, now) <==> NothingToGoBy(config, stored, now)
  {
  }

  lemma GivenByTwo(a: Status, b: Status, level: State, reason: string)
    ensures Gives([a, b], level, reason) <==>
              (a.state == level && reason in a.reasons) || (b.state == level && reason in b.reasons)
  {
    assert a in [a, b] && b in [a, b];
  }
}
