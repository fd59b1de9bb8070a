/**
 The probe runner: walk the planned candidates with early exit, turn the outcomes into one
 verdict, and remember the paths the device does not support.
 */
module ProbeRunner {
  import opened Containers
  import Decimal
  import opened ProbePlanner

  /**
   The answer to one read. `unsupportedError` says whether the error text of a failed read matches
   the source's "unsupported attribute" pattern.
   */
  datatype CommandResult = CommandResult(
    ok: bool, timedOut: bool, unsupportedError: bool, error: Option<string>, duration: Option<int>)

  datatype Outcome = Outcome(ok: Option<bool>, limited: bool, candidate: Candidate, result: CommandResult)

  /** What one attempt amounts to; an unsupported path gives neither success nor failure. */
  function Attempt(candidate: Candidate, result: CommandResult): Outcome {
    if result.timedOut then Outcome(Some(false), false, candidate, result)
    else if result.ok then Outcome(Some(true), false, candidate, result)
    else if result.unsupportedError then Outcome(None, true, candidate, result)
    else Outcome(Some(false), false, candidate, result)
  }

  predicate IsGeneric(candidate: Candidate) {
    candidate.weight.Generic? || candidate.weight.Override?
  }

  /** Whether the walk ends after this outcome. */
  predicate Stops(outcome: Outcome, mode: Mode) {
    outcome.ok == Some(true) && (outcome.candidate.weight.DeviceSpecific? || mode.Conservative?)
  }

  /** The outcomes of the walk that stops early. */
  function EarlyExit(cs: seq<Candidate>, mode: Mode, device: string -> CommandResult): seq<Outcome> {
    if cs == [] then [] else
    var outcome := Attempt(cs[0], device(cs[0].path));
    [outcome] + if Stops(outcome, mode) then [] else EarlyExit(cs[1..], mode, device)
  }

  /** The outcomes of trying every candidate. */
  function Exhaustive(cs: seq<Candidate>, device: string -> CommandResult): seq<Outcome> {
    if cs == [] then [] else [Attempt(cs[0], device(cs[0].path))] + Exhaustive(cs[1..], device)
  }

  /** `next(outcome for outcome in outcomes if ...)`. */
  function FirstWith(outcomes: seq<Outcome>, ok: bool, specific: bool): Option<Outcome> {
    if outcomes == [] then None
    else if outcomes[0].ok == Some(ok) && outcomes[0].candidate.weight.DeviceSpecific? == specific
        then Some(outcomes[0])
    else FirstWith(outcomes[1..], ok, specific)
  }

  datatype Verdict = Verdict(ok: Option<bool>, limited: bool, decisive: Outcome)

  function Judge(outcomes: seq<Outcome>): Verdict
    requires outcomes != []
  {
    var specificSuccess := FirstWith(outcomes, true, true);
    var genericSuccess := FirstWith(outcomes, true, false);
    var genericFailure := FirstWith(outcomes, false, false);
    var last := outcomes[|outcomes| - 1];
    if specificSuccess.Some? then Verdict(Some(true), false, specificSuccess.value)
    else if genericSuccess.Some? then Verdict(Some(true), false, genericSuccess.value)
    else if genericFailure.Some? then Verdict(Some(false), false, genericFailure.value)
    else Verdict(if last.limited then None else last.ok, last.limited, last)
  }

  /** The unsupported list after learning from the outcomes. */
  function Learn(known: seq<string>, outcomes: seq<Outcome>): seq<string> {
    if outcomes == [] then known else
    var learned, o := Learn(known, outcomes[..|outcomes| - 1]), outcomes[|outcomes| - 1];
    if o.limited && o.candidate.path !in learned then learned + [o.candidate.path] else learned
  }

  /** `_aggregate_probe_outcomes`. */
  function Aggregate(node: Node, outcomes: seq<Outcome>): Node {
    if outcomes == [] then node else
    var verdict := Judge(outcomes);
    var best := verdict.decisive;
    var success := verdict.ok == Some(true);
    node.(
      lastOk := verdict.ok,
      limited := verdict.limited,
      lastPath := Some(best.candidate.path),
      lastDuration := best.result.duration,
      lastError := if success || verdict.limited then None else best.result.error,
      caption := Some(best.candidate.caption),
      unsupported := Learn(node.unsupported, outcomes),
      successKind := if success then Some(best.candidate.kind) else node.successKind,
      successPath := if success then Some(best.candidate.path) else node.successPath)
  }

  method AggregateOutcomes(node: Node, outcomes: seq<Outcome>) returns (updated: Node)
    ensures updated == Aggregate(node, outcomes)
  {
    if outcomes == [] {
      return node;
    }
    var unsupported := node.unsupported;
    for i := 0 to |outcomes|
      invariant unsupported == Learn(node.unsupported, outcomes[..i])
    {
      var outcome := outcomes[i];
      assert outcomes[..i + 1][..i] == outcomes[..i];
      if outcome.limited && outcome.candidate.path !in unsupported {
        unsupported := unsupported + [outcome.candidate.path];
      }
    }
    assert outcomes[..|outcomes|] == outcomes;
    var verdict := Judge(outcomes);
    var best := verdict.decisive;
    updated := node.(
      lastOk := verdict.ok,
      limited := verdict.limited,
      lastPath := Some(best.candidate.path),
      lastDuration := best.result.duration,
      lastError := if verdict.ok == Some(true) || verdict.limited then None else best.result.error,
      caption := Some(best.candidate.caption),
      unsupported := unsupported);
    if verdict.ok == Some(true) {
      updated := updated.(successKind := Some(best.candidate.kind), successPath := Some(best.candidate.path));
    }
  }

  datatype RunResult = Skipped(reason: string) | Probed(ok: Option<bool>)

  class Runner {
    const config: Config
    var nodes: map<int, Node>
    /** Every path requested so far, with the node asked. */
    ghost var requested: seq<(int, string)>

    constructor (config: Config, nodes: map<int, Node>)
      ensures this.config == config && this.nodes == nodes && requested == []
    {
      this.config, this.nodes, requested := config, nodes, [];
    }

    ghost function Walk(nodeId: int, attributeKeys: set<string>, device: string -> CommandResult): seq<Outcome>
      requires nodeId in nodes
      reads this
    {
      EarlyExit(Plan(nodes[nodeId], attributeKeys, config), config.mode, device)
    }

    method RunProbeForNode(nodeId: int, attributeKeys: set<string>, connected: bool, device: string -> CommandResult)
      returns (r: RunResult)
      modifies this
      ensures var skip :=
                if nodeId !in old(nodes) then Some("node not known")
                else if !connected then Some("matter server not connected")
                else if !old(nodes)[nodeId].available then Some("node unavailable")
                else if Plan(old(nodes)[nodeId], attributeKeys, config) == [] then Some("no probe candidates")
                else None;
              if skip.Some? then
                r == Skipped(skip.value) && nodes == old(nodes) && requested == old(requested)
              else
                var outcomes := old(Walk(nodeId, attributeKeys, device));
                var updated := Aggregate(old(nodes)[nodeId], outcomes);
                && r == Probed(updated.lastOk)
                && nodes == old(nodes)[nodeId := updated]
                && requested == old(requested) + Asked(nodeId, outcomes)
    {
      if nodeId !in nodes {
        return Skipped("node not known");
      }
      var node := nodes[nodeId];
      if !connected {
        return Skipped("matter server not connected");
      }
      if !node.available {
        return Skipped("node unavailable");
      }
      var candidates := Plan(node, attributeKeys, config);
      if candidates == [] {
        return Skipped("no probe candidates");
      }
      var outcomes := WalkCandidates(nodeId, candidates, device);
      var updated := AggregateOutcomes(node, outcomes);
      nodes := nodes[nodeId := updated];
      r := Probed(updated.lastOk);
    }

    /** The request and the classification of its answer. */
    method AttemptReadProbe(nodeId: int, candidate: Candidate, device: string -> CommandResult)
      returns (outcome: Outcome)
      modifies this`requested
      ensures outcome == Attempt(candidate, device(candidate.path)) && outcome.candidate == candidate
      ensures requested == old(requested) + [(nodeId, candidate.path)]
    {
      requested := requested + [(nodeId, candidate.path)];
      outcome := Attempt(candidate, device(candidate.path));
    }

    /** The loop of `_run_probe_for_node`. */
    method WalkCandidates(nodeId: int, candidates: seq<Candidate>, device: string -> CommandResult)
      returns (outcomes: seq<Outcome>)
      modifies this`requested
      ensures outcomes == EarlyExit(candidates, config.mode, device)
      ensures requested == old(requested) + Asked(nodeId, outcomes)
    {
      outcomes := [];
      ghost var walk := EarlyExit(candidates, config.mode, device);
      ghost var before := requested;
      assert candidates[0..] == candidates && [] + walk == walk;
      for i := 0 to |candidates|
        invariant requested == before + Asked(nodeId, outcomes)
        invariant walk == outcomes + EarlyExit(candidates[i..], config.mode, device)
      {
        var candidate := candidates[i];
        var outcome := AttemptReadProbe(nodeId, candidate, device);
        GrowAsked(nodeId, outcomes, outcome);
        WalkOne(outcomes, candidates, i, config.mode, device);
        outcomes := outcomes + [outcome];
        if outcome.limited {
          continue;
        }
        if outcome.ok == Some(true) && candidate.weight.DeviceSpecific? {
          return;
        }
        if outcome.ok == Some(true) && IsGeneric(candidate) {
          if config.mode == Conservative {
            return;
          }
          continue;
        }
      }
      assert candidates[|candidates|..] == [];
    }
  }

  lemma WalkOne(done: seq<Outcome>, cs: seq<Candidate>, i: nat, mode: Mode, device: string -> CommandResult)
    requires i < |cs|
    ensures var outcome := Attempt(cs[i], device(cs[i].path));
            done + EarlyExit(cs[i..], mode, device) ==
              if Stops(outcome, mode) then done + [outcome] else done + [outcome] + EarlyExit(cs[i + 1..], mode, device)
  {
    assert cs[i..][1..] == cs[i + 1..];
    var outcome := Attempt(cs[i], device(cs[i].path));
    assert done + ([outcome] + EarlyExit(cs[i + 1..], mode, device)) ==
        done + [outcome] + EarlyExit(cs[i + 1..], mode, device);
    assert [outcome] + [] == [outcome];
  }

  ghost function Asked(nodeId: int, outcomes: seq<Outcome>): seq<(int, string)> {
    seq(|outcomes|, i requires 0 <= i < |outcomes| => (nodeId, outcomes[i].candidate.path))
  }

  lemma GrowAsked(nodeId: int, outcomes: seq<Outcome>, outcome: Outcome)
    ensures Asked(nodeId, outcomes + [outcome]) == Asked(nodeId, outcomes) + [(nodeId, outcome.candidate.path)]
  {
  }

  // ----- early exit is sound -----

  lemma {:induction false} EarlyExitIsPrefix(cs: seq<Candidate>, mode: Mode, device: string -> CommandResult)
    returns (k: nat)
    ensures var early, all := EarlyExit(cs, mode, device), Exhaustive(cs, device);
            && k == |early| <= |all| && early == all[..k]
            && (k < |all| ==> k > 0 && Stops(early[k - 1], mode))
    ensures forall o :: o in Exhaustive(cs, device) ==> o.candidate in cs
  {
    if cs == [] {
      k := 0;
    } else {
      var outcome := Attempt(cs[0], device(cs[0].path));
      var m := EarlyExitIsPrefix(cs[1..], mode, device);
      var rest := Exhaustive(cs[1..], device);
      assert Exhaustive(cs, device) == [outcome] + rest;
      k := if Stops(outcome, mode) then 1 else 1 + m;
      assert ([outcome] + rest)[..1] == [outcome];
      assert ([outcome] + rest)[..1 + m] == [outcome] + rest[..m];
    }
  }

  lemma {:induction false} FirstWithPrefix(a: seq<Outcome>, b: seq<Outcome>, ok: bool, specific: bool)
    ensures FirstWith(a + b, ok, specific) ==
              if FirstWith(a, ok, specific).Some? then FirstWith(a, ok, specific) else FirstWith(b, ok, specific)
  {
    if a == [] {
      assert a + b == b;
    } else {
      FirstWithPrefix(a[1..], b, ok, specific);
      assert (a + b)[1..] == a[1..] + b;
    }
  }

  lemma {:induction false} FoundIfPresent(outcomes: seq<Outcome>, o: Outcome, ok: bool)
    ensures o in outcomes && o.ok == Some(ok) ==> FirstWith(outcomes, ok, o.candidate.weight.DeviceSpecific?).Some?
  {
    if outcomes != [] {
      FoundIfPresent(outcomes[1..], o, ok);
    }
  }

  lemma {:induction false} NothingSpecific(outcomes: seq<Outcome>, ok: bool)
    requires forall o :: o in outcomes ==> !o.candidate.weight.DeviceSpecific?
    ensures FirstWith(outcomes, ok, true).None?
  {
    if outcomes != [] {
      NothingSpecific(outcomes[1..], ok);
    }
  }

  lemma SameVerdict(early: seq<Outcome>, rest: seq<Outcome>, mode: Mode)
    requires early != [] && (rest != [] ==> Stops(early[|early| - 1], mode))
    requires mode.Conservative? ==> forall o :: o in early + rest ==> !o.candidate.weight.DeviceSpecific?
    ensures Judge(early) == Judge(early + rest)
  {
    if rest == [] {
      assert early + rest == early;
    } else {
      var stop := early[|early| - 1];
      FoundIfPresent(early, stop, true);
      FirstWithPrefix(early, rest, true, true);
      FirstWithPrefix(early, rest, true, false);
      if mode.Conservative? {
        NothingSpecific(early + rest, true);
      }
    }
  }

  lemma {:induction false} LearnGrows(known: seq<string>, early: seq<Outcome>, rest: seq<Outcome>)
    ensures Learn(known, early) <= Learn(known, early + rest)
  {
    if rest == [] {
      assert early + rest == early;
    } else {
      var n := |rest| - 1;
      LearnGrows(known, early, rest[..n]);
      assert (early + rest)[..|early + rest| - 1] == early + rest[..n];
    }
  }

  /**
   With the device's answers fixed during the run, stopping early stores the same verdict, limited
   flag, path, label, error, duration and success as trying every candidate; only the list of
   unsupported paths may be shorter, and then it is a prefix.
   */
  lemma {:induction false} EarlyExitIsSound(node: Node, cs: seq<Candidate>, mode: Mode, device: string -> CommandResult)
    requires mode.Conservative? ==> NoDeviceSpecific(cs)
    ensures var early := Aggregate(node, EarlyExit(cs, mode, device));
            var all := Aggregate(node, Exhaustive(cs, device));
            early.(unsupported := []) == all.(unsupported := []) && early.unsupported <= all.unsupported
  {
    var early, all := EarlyExit(cs, mode, device), Exhaustive(cs, device);
    var k := EarlyExitIsPrefix(cs, mode, device);
    assert early + all[k..] == all;
    if early != [] {
      SameVerdict(early, all[k..], mode);
      LearnGrows(node.unsupported, early, all[k..]);
    }
  }

  /** Every planned run satisfies the condition of `EarlyExitIsSound`. */
  lemma {:induction false} PlannedRunsAreSound(node: Node, attributeKeys: set<string>, config: Config,
      device: string -> CommandResult)
    ensures var cs := Plan(node, attributeKeys, config);
            var early, all := Aggregate(node, EarlyExit(cs, config.mode, device)),
                Aggregate(node, Exhaustive(cs, device));
            early.(unsupported := []) == all.(unsupported := []) && early.unsupported <= all.unsupported
  {
    if config.mode.Conservative? {
      ConservativePlansAreGeneric(node, attributeKeys, config);
    }
    EarlyExitIsSound(node, Plan(node, attributeKeys, config), config.mode, device);
  }

  /** A device-specific candidate in conservative mode would break it: the generic success wins. */
  lemma {:induction false} ConservativeNeedsGenericPlans(node: Node, generic: Candidate, specific: Candidate,
      device: string -> CommandResult)
    requires generic.weight.Generic? && specific.weight.DeviceSpecific? && generic.path != specific.path
    requires device(generic.path) == device(specific.path) == CommandResult(true, false, false, None, None)
    ensures Aggregate(node, EarlyExit([generic, specific], Conservative, device)).lastPath == Some(generic.path)
    ensures Aggregate(node, Exhaustive([generic, specific], device)).lastPath == Some(specific.path)
  {
    var a, b := Attempt(generic, device(generic.path)), Attempt(specific, device(specific.path));
    assert [generic, specific][1..] == [specific] && [specific][1..] == [];
    assert Exhaustive([specific], device) == [b];
    assert Exhaustive([generic, specific], device) == [a, b];
    assert [a, b][1..] == [b];
    assert EarlyExit([generic, specific], Conservative, device) == [a];
    assert [a][1..] == [] && [b][1..] == [];
    assert FirstWith([a], true, true) == None && FirstWith([a], true, false) == Some(a);
    assert FirstWith([b], true, true) == Some(b) && FirstWith([a, b], true, true) == Some(b);
  }

  // ----- learning over many runs -----

  /** One completed run for an available node, with whatever the device answers. */
  function ProbedNode(node: Node, attributeKeys: set<string>, config: Config, device: string -> CommandResult): Node {
    Aggregate(node, EarlyExit(Plan(node, attributeKeys, config), config.mode, device))
  }

  /** The paths asked in that run, and those of them answered "unsupported". */
  function AskedIn(node: Node, attributeKeys: set<string>, config: Config,
      device: string -> CommandResult): set<string> {
    set o | o in EarlyExit(Plan(node, attributeKeys, config), config.mode, device) :: o.candidate.path
  }

  function RefusedIn(node: Node, attributeKeys: set<string>, config: Config,
      device: string -> CommandResult): set<string> {
    set o | o in EarlyExit(Plan(node, attributeKeys, config), config.mode, device) && o.limited :: o.candidate.path
  }

  lemma {:induction false} LearnAddsRefused(known: seq<string>, outcomes: seq<Outcome>)
    ensures forall p :: p in Learn(known, outcomes) <==>
              p in known || exists o :: o in outcomes && o.limited && o.candidate.path == p
  {
    if outcomes != [] {
      var n := |outcomes| - 1;
      LearnAddsRefused(known, outcomes[..n]);
      assert outcomes == outcomes[..n] + [outcomes[n]];
    }
  }

  /** A run asks planned paths only, and learns exactly the refused ones. */
  lemma {:induction false} RunLearns(node: Node, attributeKeys: set<string>, config: Config,
      device: string -> CommandResult)
    ensures AskedIn(node, attributeKeys, config, device) <= PathsOf(Plan(node, attributeKeys, config))
    ensures Unsupported(ProbedNode(node, attributeKeys, config, device)) ==
              Unsupported(node) + RefusedIn(node, attributeKeys, config, device)
  {
    var cs := Plan(node, attributeKeys, config);
    var k := EarlyExitIsPrefix(cs, config.mode, device);
    var early, all := EarlyExit(cs, config.mode, device), Exhaustive(cs, device);
    LearnAddsRefused(node.unsupported, early);
    assert forall o :: o in early ==> o in all;
  }

  /** What a run asks it did not know to be refused. */
  lemma AsksNothingKnown(node: Node, attributeKeys: set<string>, config: Config, device: string -> CommandResult)
    ensures AskedIn(node, attributeKeys, config, device) !! Unsupported(node)
  {
    PlanIsClean(node, attributeKeys, config);
    RunLearns(node, attributeKeys, config, device);
  }

  // ----- how often a device can still refuse -----

  lemma PathsOfConcat(a: seq<Candidate>, b: seq<Candidate>)
    ensures PathsOf(a + b) == PathsOf(a) + PathsOf(b)
  {
  }

  function SuccessPaths(path: Option<string>): set<string> {
    if path.GetOr("") == "" then {} else {path.value}
  }

  predicate Off(nodeId: int, config: Config) {
    var perNode := Get(config.perNode, Decimal.Format(nodeId));
    config.mode.Disabled? || (perNode.Some? && perNode.value.disabled)
  }

  lemma CachedPaths(path: Option<string>, kind: Option<string>, caption: Option<string>, unsupported: set<string>)
    ensures PathsOf(CachedSuccess(path, kind, caption, unsupported)) == SuccessPaths(path) - unsupported
  {
  }

  lemma PlanPaths(node: Node, attributeKeys: set<string>, config: Config)
    requires !Off(node.nodeId, config)
    ensures var keys := if attributeKeys != {} then attributeKeys else node.attributeKeys;
            var front, back := Front(node.nodeId, InferredCovering(node), keys, config), Back(keys, config);
            PathsOf(Plan(node, attributeKeys, config)) ==
              PathsOf(front) + SuccessPaths(node.successPath) + PathsOf(back) - Unsupported(node)
  {
    var keys := if attributeKeys != {} then attributeKeys else node.attributeKeys;
    var front, back := Front(node.nodeId, InferredCovering(node), keys, config), Back(keys, config);
    var cached := CachedSuccess(node.successPath, node.successKind, node.caption, Unsupported(node));
    CachedPaths(node.successPath, node.successKind, node.caption, Unsupported(node));
    PathsOfConcat(front + cached, back);
    PathsOfConcat(front, cached);
    DedupedPaths(front + cached + back);
    WithoutPaths(Deduped(front + cached + back), Unsupported(node));
  }

  lemma {:induction false} FirstWithIsMember(outcomes: seq<Outcome>, ok: bool, specific: bool)
    ensures FirstWith(outcomes, ok, specific).Some? ==> FirstWith(outcomes, ok, specific).value in outcomes
  {
    if outcomes != [] {
      FirstWithIsMember(outcomes[1..], ok, specific);
    }
  }

  lemma DecisiveIsMember(outcomes: seq<Outcome>)
    requires outcomes != []
    ensures Judge(outcomes).decisive in outcomes
  {
    FirstWithIsMember(outcomes, true, true);
    FirstWithIsMember(outcomes, true, false);
    FirstWithIsMember(outcomes, false, false);
  }

  lemma SuccessWasAsked(node: Node, outcomes: seq<Outcome>)
    ensures SuccessPaths(Aggregate(node, outcomes).successPath)
         <= SuccessPaths(node.successPath) + set o | o in outcomes :: o.candidate.path
  {
    if outcomes != [] {
      DecisiveIsMember(outcomes);
    }
  }

  /** After a run, nothing new is planned and nothing refused is planned. */
  lemma {:induction false} PlanShrinks(node: Node, attributeKeys: set<string>, config: Config,
      device: string -> CommandResult)
    ensures PathsOf(Plan(ProbedNode(node, attributeKeys, config, device), attributeKeys, config))
         <= PathsOf(Plan(node, attributeKeys, config)) - RefusedIn(node, attributeKeys, config, device)
  {
    if !Off(node.nodeId, config) {
      var next := ProbedNode(node, attributeKeys, config, device);
      RunLearns(node, attributeKeys, config, device);
      SuccessWasAsked(node, EarlyExit(Plan(node, attributeKeys, config), config.mode, device));
      PlanPaths(node, attributeKeys, config);
      PlanPaths(next, attributeKeys, config);
    }
  }

  /** Of consecutive runs with fixed keys and configuration, those that see an unsupported answer. */
  function RefusingRuns(node: Node, attributeKeys: set<string>, config: Config,
      devices: seq<string -> CommandResult>): nat
    decreases |devices|
  {
    if devices == [] then 0 else
    (if RefusedIn(node, attributeKeys, config, devices[0]) != {} then 1 else 0) +
    RefusingRuns(ProbedNode(node, attributeKeys, config, devices[0]), attributeKeys, config, devices[1..])
  }

  lemma SubsetSize(a: set<string>, b: set<string>)
    requires a <= b
    ensures |a| <= |b|
  {
    assert b == a + (b - a);
  }

  /** They are at most as many as the paths of the first plan, however the device behaves. */
  lemma {:induction false} RefusalsAreBounded(node: Node, attributeKeys: set<string>, config: Config,
      devices: seq<string -> CommandResult>)
    ensures RefusingRuns(node, attributeKeys, config, devices) <= |PathsOf(Plan(node, attributeKeys, config))|
    decreases |devices|
  {
    if devices != [] {
      var next := ProbedNode(node, attributeKeys, config, devices[0]);
      var refused := RefusedIn(node, attributeKeys, config, devices[0]);
      var planned := PathsOf(Plan(node, attributeKeys, config));
      RefusalsAreBounded(next, attributeKeys, config, devices[1..]);
      PlanShrinks(node, attributeKeys, config, devices[0]);
      RunLearns(node, attributeKeys, config, devices[0]);
      SubsetSize(PathsOf(Plan(next, attributeKeys, config)), planned - refused);
      assert refused <= planned;
      assert planned == refused + (planned - refused);
    }
  }
}
