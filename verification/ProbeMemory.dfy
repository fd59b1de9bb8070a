/**
 What probe runs learn about a node, kept in the node that the Matter observer caches: how long a
 path answered "unsupported" stays known, and so is not asked again.
 */
module ProbeMemory {
  import opened Containers
  import opened MatterObserver
  import Planner = ProbePlanner
  import Runner = ProbeRunner

  /** A report whose handling is suspended between deciding and storing. */
  datatype Pending = Pending(report: Report, node: Node)

  datatype Memory = Memory(world: World, pending: Option<Pending>)

  /**
   A probe run of a node with the keys, settings and answers of its own time. `rest` holds the
   stored fields that planning reads besides the node's id, availability and unsupported paths.
   */
  datatype Probe = Probe(
    id: int, rest: Planner.Node, keys: set<string>, config: Planner.Config, device: string -> Runner.CommandResult)

  /** One thing at a time; the handling of a report may be given up while it is suspended. */
  datatype Action =
    | Deciding(report: Report, now: int)
    | Storing
    | GivingUp
    | Removing(id: int)
    | Writing(copy: Node)
    | Connecting
    | Disconnecting
    | Restarting
    | Probing(probe: Probe)

  ghost predicate Valid(m: Memory, server: string) {
    && Mirrors(m.world, server)
    && (m.pending.Some? ==>
          m.pending.value.node.id == m.pending.value.report.id && m.pending.value.node.serverId == server)
  }

  /** The node as the planner sees it. */
  function Planned(node: Node, probe: Probe): Planner.Node {
    probe.rest.(nodeId := node.id, available := node.available, unsupported := node.learned)
  }

  /** Otherwise the run is skipped. */
  predicate Runs(m: Memory, probe: Probe) {
    probe.id in m.world.nodes && m.world.connected && m.world.nodes[probe.id].available
  }

  function Asked(m: Memory, probe: Probe): set<string> {
    if !Runs(m, probe) then {} else
    Runner.AskedIn(Planned(m.world.nodes[probe.id], probe), probe.keys, probe.config, probe.device)
  }

  function Refused(m: Memory, probe: Probe): set<string> {
    if !Runs(m, probe) then {} else
    Runner.RefusedIn(Planned(m.world.nodes[probe.id], probe), probe.keys, probe.config, probe.device)
  }

  /** The copy that a run writes back. */
  function Probed(m: Memory, probe: Probe): Node
    requires probe.id in m.world.nodes
  {
    var node := m.world.nodes[probe.id];
    node.(learned := Runner.ProbedNode(Planned(node, probe), probe.keys, probe.config, probe.device).unsupported)
  }

  ghost function Next(m: Memory, server: string, action: Action): Memory
    requires Valid(m, server)
  {
    match action
    case Deciding(report, now) =>
      if m.pending.Some? then m else
      Memory(Decide(m.world, report), Some(Pending(report,
          NodeAfter(Get(m.world.nodes, report.id), report, server, now))))
    case Storing =>
      if m.pending.None? then m else
      Memory(StoreReport(m.world, server, m.pending.value.report, m.pending.value.node), None)
    case GivingUp => m.(pending := None)
    case Removing(id) => m.(world := Remove(m.world, server, id))
    case Writing(copy) => m.(world := Persist(m.world, server, copy))
    case Connecting => m.(world := Connect(m.world))
    case Disconnecting => m.(world := Disconnect(m.world))
    case Restarting => Memory(Load(m.world, server), None)
    case Probing(probe) => if Runs(m, probe) then m.(world := Persist(m.world, server, Probed(m, probe))) else m
  }

  predicate Owned(action: Action, server: string) {
    action.Writing? ==> action.copy.serverId == server
  }

  lemma NextIsValid(m: Memory, server: string, action: Action)
    requires Valid(m, server) && Owned(action, server)
    ensures Valid(Next(m, server, action), server)
  {
    match action
    case Storing =>
      if m.pending.Some? {
        StoreMirrors(m.world, server, m.pending.value.report, m.pending.value.node);
      }
    case Removing(id) =>
      if id in m.world.nodes {
        RemoveMirrors(m.world.nodes, m.world.rows, server, id);
      }
    case Writing(copy) => WriteMirrors(m.world.nodes, m.world.rows, server, copy);
    case Restarting => LoadingAgain(m.world, server);
    case Probing(probe) =>
      if Runs(m, probe) {
        WriteMirrors(m.world.nodes, m.world.rows, server, Probed(m, probe));
      }
    case _ =>
  }

  /** The action at position `k` leads from the memory there to the next one. */
  ghost predicate Leads(run: seq<Memory>, server: string, actions: seq<Action>, k: nat)
    requires |run| == |actions| + 1 && k < |actions|
  {
    Valid(run[k], server) && Owned(actions[k], server) && run[k + 1] == Next(run[k], server, actions[k])
  }

  /** The memories before, between and after the actions. */
  ghost predicate IsRun(run: seq<Memory>, server: string, actions: seq<Action>) {
    && |run| == |actions| + 1 && Valid(run[0], server)
    && forall k :: 0 <= k < |actions| ==> Leads(run, server, actions, k)
  }

  /** Every run can go on with every action. */
  lemma RunGoesOn(run: seq<Memory>, server: string, actions: seq<Action>, action: Action)
    requires IsRun(run, server, actions) && Owned(action, server)
    ensures Valid(run[|actions|], server)
    ensures IsRun(run + [Next(run[|actions|], server, action)], server, actions + [action])
  {
    RunIsValid(run, server, actions, |actions|);
    var more := run + [Next(run[|actions|], server, action)];
    forall k | 0 <= k < |actions| + 1 ensures Leads(more, server, actions + [action], k) {
      if k < |actions| {
        assert Leads(run, server, actions, k);
      }
    }
  }

  lemma RunIsValid(run: seq<Memory>, server: string, actions: seq<Action>, k: nat)
    requires IsRun(run, server, actions) && k <= |actions|
    ensures Valid(run[k], server)
  {
    if k > 0 {
      assert Leads(run, server, actions, k - 1);
      NextIsValid(run[k - 1], server, actions[k - 1]);
    }
  }

  // ----- exactly when a known path is lost -----

  /** The action drops a path known about a node. */
  predicate Loses(m: Memory, action: Action, id: int, path: string) {
    match action
    case Removing(other) => other == id
    case Writing(copy) => copy.id == id && path !in copy.learned
    case Storing => m.pending.Some? && m.pending.value.node.id == id && path !in m.pending.value.node.learned
    case _ => false
  }

  lemma RunLearnsPath(node: Planner.Node, probe: Probe, path: string)
    ensures path in Runner.ProbedNode(node, probe.keys, probe.config, probe.device).unsupported <==>
              path in node.unsupported || path in Runner.RefusedIn(node, probe.keys, probe.config, probe.device)
  {
    Runner.RunLearns(node, probe.keys, probe.config, probe.device);
    var after := Runner.ProbedNode(node, probe.keys, probe.config, probe.device);
    assert path in after.unsupported <==> path in Planner.Unsupported(after);
    assert path in node.unsupported <==> path in Planner.Unsupported(node);
  }

  lemma ProbingKeeps(m: Memory, probe: Probe, path: string)
    requires Runs(m, probe)
    ensures path in Probed(m, probe).learned <==> Knows(m.world, probe.id, path) || path in Refused(m, probe)
  {
    RunLearnsPath(Planned(m.world.nodes[probe.id], probe), probe, path);
  }

  lemma WrittenIsKnown(w: World, server: string, copy: Node, path: string)
    ensures Knows(Persist(w, server, copy), copy.id, path) <==> path in copy.learned
    ensures forall id :: id != copy.id ==> (Knows(Persist(w, server, copy), id, path) <==> Knows(w, id, path))
  {
  }

  lemma ProbedId(m: Memory, server: string, probe: Probe)
    requires Mirrors(m.world, server) && Runs(m, probe)
    ensures Probed(m, probe).id == probe.id && Probed(m, probe).serverId == server
  {
  }

  /** A known path is still known after an action if and only if the action does not lose it. */
  lemma {:induction false} KnownUnlessLost(m: Memory, server: string, action: Action, id: int, path: string)
    requires Valid(m, server) && Knows(m.world, id, path)
    ensures Knows(Next(m, server, action).world, id, path) <==> !Loses(m, action, id, path)
  {
    match action
    case Probing(probe) =>
      if Runs(m, probe) {
        ProbingKeeps(m, probe, path);
        ProbedId(m, server, probe);
        WrittenIsKnown(m.world, server, Probed(m, probe), path);
      }
    case Restarting => LoadingAgain(m.world, server);
    case _ =>
  }

  lemma ProbingWrites(m: Memory, server: string, probe: Probe)
    requires Valid(m, server) && Runs(m, probe)
    ensures Next(m, server, Probing(probe)) == Memory(Persist(m.world, server, Probed(m, probe)), m.pending)
  {
  }

  lemma ProbedKnows(m: Memory, server: string, probe: Probe, path: string)
    requires Mirrors(m.world, server) && path in Refused(m, probe)
    ensures Runs(m, probe) && Probed(m, probe).id == probe.id && path in Probed(m, probe).learned
  {
    ProbedId(m, server, probe);
    ProbingKeeps(m, probe, path);
  }

  /** A run that refuses a path knows it afterwards. */
  lemma RefusedIsKnown(m: Memory, server: string, probe: Probe, path: string)
    requires Valid(m, server) && path in Refused(m, probe)
    ensures Runs(m, probe) && Knows(Next(m, server, Probing(probe)).world, probe.id, path)
    ensures Next(m, server, Probing(probe)).pending == m.pending
  {
    ProbedKnows(m, server, probe, path);
    ProbingWrites(m, server, probe);
    WrittenIsKnown(m.world, server, Probed(m, probe), path);
  }

  /** A run does not ask what is known. */
  lemma KnownIsNotAsked(m: Memory, probe: Probe, path: string)
    requires Knows(m.world, probe.id, path)
    ensures path !in Asked(m, probe)
  {
    if Runs(m, probe) {
      var node := Planned(m.world.nodes[probe.id], probe);
      Runner.AsksNothingKnown(node, probe.keys, probe.config, probe.device);
      assert path in Planner.Unsupported(node);
    }
  }

  // ----- guards that can be seen from the action alone -----

  /** The action removes the node or writes a copy of it without the path. */
  predicate Forgets(action: Action, id: int, path: string) {
    match action
    case Removing(other) => other == id
    case Writing(copy) => copy.id == id && path !in copy.learned
    case _ => false
  }

  predicate ReportPending(m: Memory, id: int) {
    m.pending.Some? && m.pending.value.node.id == id
  }

  /** Known, and a suspended report of the node knows it as well. */
  predicate Kept(m: Memory, id: int, path: string) {
    Knows(m.world, id, path) && (ReportPending(m, id) ==> path in m.pending.value.node.learned)
  }

  lemma StepKeepsIff(m: Memory, server: string, action: Action, id: int, path: string)
    requires Valid(m, server) && Kept(m, id, path)
    ensures Kept(Next(m, server, action), id, path) <==> !Forgets(action, id, path)
    ensures Knows(Next(m, server, action).world, id, path) <==> !Forgets(action, id, path)
  {
    KnownUnlessLost(m, server, action, id, path);
  }

  /** Between two points of a run nothing makes the observer forget the path. */
  predicate Undisturbed(actions: seq<Action>, i: nat, j: nat, id: int, path: string)
    requires j <= |actions|
  {
    forall k :: i <= k < j ==> !Forgets(actions[k], id, path)
  }

  lemma {:induction false} StaysKept(run: seq<Memory>, server: string, actions: seq<Action>, i: nat, j: nat, id: int,
      path: string)
    requires IsRun(run, server, actions) && i <= j <= |actions|
    requires Undisturbed(actions, i, j, id, path) && Kept(run[i], id, path)
    ensures Kept(run[j], id, path)
    decreases j
  {
    if i < j {
      StaysKept(run, server, actions, i, j - 1, id, path);
      assert Leads(run, server, actions, j - 1) && !Forgets(actions[j - 1], id, path);
      StepKeepsIff(run[j - 1], server, actions[j - 1], id, path);
    }
  }

  predicate KnownAt(run: seq<Memory>, k: nat, id: int, path: string) {
    k < |run| && Knows(run[k].world, id, path)
  }

  predicate KnownThroughout(run: seq<Memory>, i: nat, j: nat, id: int, path: string) {
    forall k :: i <= k <= j ==> KnownAt(run, k, id, path)
  }

  lemma {:induction false} ForgottenAt(run: seq<Memory>, server: string, actions: seq<Action>, k: nat, id: int,
      path: string)
    requires IsRun(run, server, actions) && k < |actions|
    requires Kept(run[k], id, path) && Forgets(actions[k], id, path)
    ensures !KnownAt(run, k + 1, id, path)
  {
    assert Leads(run, server, actions, k);
    StepKeepsIff(run[k], server, actions[k], id, path);
  }

  /** The first action that forgets the path, if there is one. */
  lemma FirstForgetting(actions: seq<Action>, i: nat, j: nat, id: int, path: string) returns (k: nat)
    requires i <= j <= |actions|
    ensures i <= k <= j && Undisturbed(actions, i, k, id, path)
    ensures k < j ==> Forgets(actions[k], id, path)
  {
    k := i;
    while k < j && !Forgets(actions[k], id, path)
      invariant i <= k <= j && Undisturbed(actions, i, k, id, path)
    {
      k := k + 1;
    }
  }

  /**
   In every run: what is known about a node without a suspended report stays known up to a later
   point if and only if up to there the node is not removed and no copy of it without the path is
   written. Later runs and reports, suspended or given up, never lose it.
   */
  lemma {:induction false} KnownWhileUndisturbed(
    run: seq<Memory>, server: string, actions: seq<Action>, i: nat, j: nat, id: int, path: string)
    requires IsRun(run, server, actions) && i <= j <= |actions|
    requires Knows(run[i].world, id, path) && !ReportPending(run[i], id)
    ensures KnownThroughout(run, i, j, id, path) <==> Undisturbed(actions, i, j, id, path)
  {
    var first := FirstForgetting(actions, i, j, id, path);
    forall k: nat | i <= k <= first ensures KnownAt(run, k, id, path) {
      StaysKept(run, server, actions, i, k, id, path);
    }
    if first < j {
      StaysKept(run, server, actions, i, first, id, path);
      ForgottenAt(run, server, actions, first, id, path);
    }
  }

  lemma RefusedIsKept(run: seq<Memory>, server: string, actions: seq<Action>, i: nat, probe: Probe, path: string)
    requires IsRun(run, server, actions) && i < |actions| && actions[i] == Probing(probe)
    requires path in Refused(run[i], probe) && !ReportPending(run[i], probe.id)
    ensures Knows(run[i + 1].world, probe.id, path) && !ReportPending(run[i + 1], probe.id)
  {
    assert Leads(run, server, actions, i);
    RefusedIsKnown(run[i], server, probe, path);
  }

  /**
   In every run of observer actions and probe runs: a path that a probe run of a node saw refused is
   not asked by a later run of that node, whatever its keys, settings and device, unless a report of
   the node was suspended during the first run, or in between the node was removed or a copy of it
   without the path was written.
   */
  lemma {:induction false} RefusedIsNeverAskedAgain(
    run: seq<Memory>, server: string, actions: seq<Action>, i: nat, j: nat, path: string)
    requires IsRun(run, server, actions) && i < j < |actions|
    requires actions[i].Probing? && actions[j].Probing? && actions[i].probe.id == actions[j].probe.id
    requires path in Refused(run[i], actions[i].probe) && !ReportPending(run[i], actions[i].probe.id)
    requires Undisturbed(actions, i + 1, j, actions[i].probe.id, path)
    ensures path !in Asked(run[j], actions[j].probe)
  {
    RefusedIsKept(run, server, actions, i, actions[i].probe, path);
    StaysKept(run, server, actions, i + 1, j, actions[i].probe.id, path);
    KnownIsNotAsked(run[j], actions[j].probe, path);
  }

  lemma StoringForgets(m: Memory, server: string, id: int, path: string)
    requires Valid(m, server) && ReportPending(m, id) && path !in m.pending.value.node.learned
    ensures !Knows(Next(m, server, Storing).world, id, path)
  {
  }

  /** A path that a run inside a suspended report newly learns is known until the report is stored. */
  lemma {:induction false} RunInsideAReportIsForgotten(m: Memory, server: string, probe: Probe, path: string)
    requires Valid(m, server) && path in Refused(m, probe)
    requires ReportPending(m, probe.id) && path !in m.pending.value.node.learned
    ensures var probed := Next(m, server, Probing(probe));
            && Valid(probed, server) && Knows(probed.world, probe.id, path)
            && !Knows(Next(probed, server, Storing).world, probe.id, path)
  {
    var probed := Next(m, server, Probing(probe));
    NextIsValid(m, server, Probing(probe));
    RefusedIsKnown(m, server, probe, path);
    assert ReportPending(probed, probe.id);
    StoringForgets(probed, server, probe.id, path);
  }
}
