/**
 What a probe run asks, learns and concludes, told from the plan and the device's answers alone.
 */
module ProbeVerdict {
  import opened Containers
  import opened ProbePlanner
  import opened ProbeRunner

  // ----- the answer to one read -----

  predicate Succeeds(answer: CommandResult) {
    answer.ok && !answer.timedOut
  }

  predicate Refuses(answer: CommandResult) {
    !answer.ok && !answer.timedOut && answer.unsupportedError
  }

  predicate Fails(answer: CommandResult) {
    answer.timedOut || (!answer.ok && !answer.unsupportedError)
  }

  /** Position `i` was answered by a success that ends the walk. */
  predicate EndsTheWalk(cs: seq<Candidate>, mode: Mode, device: string -> CommandResult, i: nat)
    requires i < |cs|
  {
    Succeeds(device(cs[i].path)) && (cs[i].weight == DeviceSpecific || mode == Conservative)
  }

  /** The first `k` candidates are asked: all of them, or those up to the first success that ends the walk. */
  predicate AsksFirst(cs: seq<Candidate>, mode: Mode, device: string -> CommandResult, k: nat) {
    && k <= |cs|
    && (forall i :: 0 <= i < k - 1 ==> !EndsTheWalk(cs, mode, device, i))
    && (k < |cs| ==> k > 0 && EndsTheWalk(cs, mode, device, k - 1))
  }

  lemma {:induction false} WalkAsks(cs: seq<Candidate>, mode: Mode, device: string -> CommandResult)
    ensures var outcomes := EarlyExit(cs, mode, device);
            && AsksFirst(cs, mode, device, |outcomes|)
            && forall i :: 0 <= i < |outcomes| ==> outcomes[i] == Attempt(cs[i], device(cs[i].path))
  {
    if cs != [] {
      var rest := EarlyExit(cs[1..], mode, device);
      var outcome := Attempt(cs[0], device(cs[0].path));
      WalkAsks(cs[1..], mode, device);
      assert Stops(outcome, mode) <==> EndsTheWalk(cs, mode, device, 0);
      if !Stops(outcome, mode) {
        WalkGoesOn(cs, mode, device, |rest|);
      }
    }
  }

  lemma WalkGoesOn(cs: seq<Candidate>, mode: Mode, device: string -> CommandResult, k: nat)
    requires cs != [] && !EndsTheWalk(cs, mode, device, 0) && AsksFirst(cs[1..], mode, device, k)
    ensures AsksFirst(cs, mode, device, 1 + k)
  {
    forall i | 0 <= i < k ensures !EndsTheWalk(cs, mode, device, i) || i == k {
      if i > 0 {
        assert cs[i] == cs[1..][i - 1];
        assert !EndsTheWalk(cs[1..], mode, device, i - 1) || i - 1 == k - 1;
      }
    }
    if k < |cs| - 1 {
      assert EndsTheWalk(cs[1..], mode, device, k - 1) && cs[k] == cs[1..][k - 1];
    }
  }

  // ----- what is learned -----

  /** Among the first `k` candidates, one with this path was refused. */
  predicate RefusedAmong(cs: seq<Candidate>, device: string -> CommandResult, k: nat, path: string)
    requires k <= |cs|
  {
    exists i :: 0 <= i < k && cs[i].path == path && Refuses(device(path))
  }

  lemma {:induction false} LearnKeepsOld(known: seq<string>, outcomes: seq<Outcome>)
    ensures known <= Learn(known, outcomes)
    decreases |outcomes|
  {
    if outcomes != [] {
      LearnKeepsOld(known, outcomes[..|outcomes| - 1]);
    }
  }

  lemma LearnedAreRefused(known: seq<string>, cs: seq<Candidate>, device: string -> CommandResult,
      outcomes: seq<Outcome>, path: string)
    requires |outcomes| <= |cs|
    requires forall i :: 0 <= i < |outcomes| ==> outcomes[i] == Attempt(cs[i], device(cs[i].path))
    ensures path in Learn(known, outcomes) <==> path in known || RefusedAmong(cs, device, |outcomes|, path)
  {
    LearnAddsRefused(known, outcomes);
    if RefusedAmong(cs, device, |outcomes|, path) {
      var i :| 0 <= i < |outcomes| && cs[i].path == path && Refuses(device(path));
      assert outcomes[i] in outcomes && outcomes[i].limited;
    }
    if o :| o in outcomes && o.limited && o.candidate.path == path {
      var i :| 0 <= i < |outcomes| && outcomes[i] == o;
      assert cs[i].path == path && Refuses(device(path));
    }
  }

  // ----- what is concluded -----

  datatype Finding = SpecificSuccess | OtherSuccess | OtherFailure

  predicate Finds(c: Candidate, answer: CommandResult, finding: Finding) {
    match finding
    case SpecificSuccess => Succeeds(answer) && c.weight == DeviceSpecific
    case OtherSuccess => Succeeds(answer) && c.weight != DeviceSpecific
    case OtherFailure => Fails(answer) && c.weight != DeviceSpecific
  }

  predicate FindsNone(cs: seq<Candidate>, device: string -> CommandResult, k: nat, finding: Finding)
    requires k <= |cs|
  {
    forall i :: 0 <= i < k ==> !Finds(cs[i], device(cs[i].path), finding)
  }

  /** Position `d` is the first of the first `k` with the finding. */
  predicate FindsFirst(cs: seq<Candidate>, device: string -> CommandResult, k: nat, finding: Finding, d: nat)
    requires k <= |cs|
  {
    d < k && Finds(cs[d], device(cs[d].path), finding) && FindsNone(cs, device, d, finding)
  }

  /**
   The answer that decides: the first device-specific success, else the first success, else the
   first failure of a candidate that is not device-specific, else the last answer.
   */
  predicate Decides(cs: seq<Candidate>, device: string -> CommandResult, k: nat, d: nat)
    requires k <= |cs|
  {
    if !FindsNone(cs, device, k, SpecificSuccess) then FindsFirst(cs, device, k, SpecificSuccess, d)
    else if !FindsNone(cs, device, k, OtherSuccess) then FindsFirst(cs, device, k, OtherSuccess, d)
    else if !FindsNone(cs, device, k, OtherFailure) then FindsFirst(cs, device, k, OtherFailure, d)
    else d == k - 1
  }

  lemma {:induction false} FirstWithIs(outcomes: seq<Outcome>, ok: bool, specific: bool) returns (d: nat)
    ensures var found := FirstWith(outcomes, ok, specific);
            && d <= |outcomes| && (found.None? <==> d == |outcomes|)
            && (found.Some? ==> found.value == outcomes[d] && outcomes[d].ok == Some(ok)
                                && (outcomes[d].candidate.weight == DeviceSpecific <==> specific))
            && forall i :: 0 <= i < d ==>
                 !(outcomes[i].ok == Some(ok) && (outcomes[i].candidate.weight == DeviceSpecific <==> specific))
  {
    if outcomes == [] || (outcomes[0].ok == Some(ok) && outcomes[0].candidate.weight.DeviceSpecific? == specific) {
      d := 0;
    } else {
      d := FirstWithIs(outcomes[1..], ok, specific);
      d := d + 1;
    }
  }

  predicate Attempted(cs: seq<Candidate>, device: string -> CommandResult, outcomes: seq<Outcome>) {
    |outcomes| <= |cs| && forall i :: 0 <= i < |outcomes| ==> outcomes[i] == Attempt(cs[i], device(cs[i].path))
  }

  /** `FirstWith` finds what the answers show. */
  lemma FirstFinding(cs: seq<Candidate>, device: string -> CommandResult, outcomes: seq<Outcome>, finding: Finding)
    returns (d: nat)
    requires Attempted(cs, device, outcomes)
    ensures var k, found := |outcomes|, FirstWith(outcomes, !finding.OtherFailure?, finding.SpecificSuccess?);
            if found.None? then FindsNone(cs, device, k, finding)
            else
              !FindsNone(cs, device, k, finding) && FindsFirst(cs, device, k, finding, d) && found.value == outcomes[d]
  {
    d := FirstWithIs(outcomes, !finding.OtherFailure?, finding.SpecificSuccess?);
    forall i | 0 <= i < |outcomes|
      ensures Finds(cs[i], device(cs[i].path), finding) <==>
                (outcomes[i].ok == Some(!finding.OtherFailure?)
                 && (outcomes[i].candidate.weight == DeviceSpecific <==> finding.SpecificSuccess?))
    {
    }
  }

  lemma JudgedByTheDecisive(cs: seq<Candidate>, device: string -> CommandResult, outcomes: seq<Outcome>)
    returns (d: nat)
    requires outcomes != [] && Attempted(cs, device, outcomes)
    ensures Decides(cs, device, |outcomes|, d) && Judge(outcomes).decisive == outcomes[d]
    ensures Judge(outcomes).ok == outcomes[d].ok && Judge(outcomes).limited == outcomes[d].limited
  {
    var a := FirstFinding(cs, device, outcomes, SpecificSuccess);
    var b := FirstFinding(cs, device, outcomes, OtherSuccess);
    var c := FirstFinding(cs, device, outcomes, OtherFailure);
    d := if FirstWith(outcomes, true, true).Some? then a
         else if FirstWith(outcomes, true, false).Some? then b
         else if FirstWith(outcomes, false, false).Some? then c
         else |outcomes| - 1;
  }

  /** What the decisive answer leaves in the node, besides the unsupported paths. */
  predicate Concludes(node: Node, updated: Node, c: Candidate, answer: CommandResult) {
    && updated.lastOk == (if Succeeds(answer) then Some(true) else if Fails(answer) then Some(false) else None)
    && (updated.limited <==> Refuses(answer))
    && updated.lastPath == Some(c.path) && updated.caption == Some(c.caption) && updated.lastDuration == answer.duration
    && updated.lastError == (if Fails(answer) then answer.error else None)
    && updated.successPath == (if Succeeds(answer) then Some(c.path) else node.successPath)
    && updated.successKind == (if Succeeds(answer) then Some(c.kind) else node.successKind)
  }

  /** The fields that no run touches. */
  predicate SameOtherwise(node: Node, updated: Node) {
    && updated.nodeId == node.nodeId && updated.available == node.available
    && updated.coveringName == node.coveringName && updated.attributeKeys == node.attributeKeys
    && updated.inferredTypes == node.inferredTypes
  }

  /**
   Every run with something to ask: how many candidates of the plan it asks, which answer decides,
   and all that it leaves in the node, told from the plan and the answers.
   */
  lemma {:induction false} RunConcludes(node: Node, attributeKeys: set<string>, config: Config,
      device: string -> CommandResult) returns (k: nat, d: nat)
    requires Plan(node, attributeKeys, config) != []
    ensures var cs, updated := Plan(node, attributeKeys, config), ProbedNode(node, attributeKeys, config, device);
            && AsksFirst(cs, config.mode, device, k) && AskedIn(node, attributeKeys, config, device) == PathsOf(cs[..k])
            && Decides(cs, device, k, d) && d < k
            && Concludes(node, updated, cs[d], device(cs[d].path)) && SameOtherwise(node, updated)
            && node.unsupported <= updated.unsupported
            && forall path :: path in updated.unsupported <==>
                 path in node.unsupported || RefusedAmong(cs, device, k, path)
  {
    var cs := Plan(node, attributeKeys, config);
    var outcomes := EarlyExit(cs, config.mode, device);
    WalkAsks(cs, config.mode, device);
    k := |outcomes|;
    d := JudgedByTheDecisive(cs, device, outcomes);
    AskedAre(cs, device, outcomes);
    LearnKeepsOld(node.unsupported, outcomes);
    forall path ensures path in Learn(node.unsupported, outcomes) <==>
                          path in node.unsupported || RefusedAmong(cs, device, k, path)
    {
      LearnedAreRefused(node.unsupported, cs, device, outcomes, path);
    }
  }

  /** The paths that a run saw refused. */
  lemma {:induction false} RefusedAre(node: Node, attributeKeys: set<string>, config: Config,
      device: string -> CommandResult, path: string) returns (k: nat)
    ensures AsksFirst(Plan(node, attributeKeys, config), config.mode, device, k)
    ensures path in RefusedIn(node, attributeKeys, config, device) <==>
              RefusedAmong(Plan(node, attributeKeys, config), device, k, path)
  {
    var cs := Plan(node, attributeKeys, config);
    var outcomes := EarlyExit(cs, config.mode, device);
    WalkAsks(cs, config.mode, device);
    k := |outcomes|;
    LearnedAreRefused([], cs, device, outcomes, path);
    LearnAddsRefused([], outcomes);
  }

  lemma AskedAre(cs: seq<Candidate>, device: string -> CommandResult, outcomes: seq<Outcome>)
    requires Attempted(cs, device, outcomes)
    ensures (set o | o in outcomes :: o.candidate.path) == PathsOf(cs[..|outcomes|])
  {
    var asked := cs[..|outcomes|];
    forall i | 0 <= i < |outcomes|
      ensures outcomes[i].candidate.path == asked[i].path && outcomes[i].candidate == cs[i]
    {
    }
    forall path | path in PathsOf(asked) ensures path in (set o | o in outcomes :: o.candidate.path) {
      var i :| 0 <= i < |asked| && asked[i].path == path;
      assert outcomes[i] in outcomes;
    }
  }

  // ----- the verdict -----

  predicate SomeSucceeds(cs: seq<Candidate>, device: string -> CommandResult, k: nat)
    requires k <= |cs|
  {
    exists i :: 0 <= i < k && Succeeds(device(cs[i].path))
  }

  predicate SomeOtherFails(cs: seq<Candidate>, device: string -> CommandResult, k: nat)
    requires k <= |cs|
  {
    exists i :: 0 <= i < k && cs[i].weight != DeviceSpecific && Fails(device(cs[i].path))
  }

  /**
   After every run: ok exactly if some asked path succeeded; failed exactly if none did and a path
   that is not device-specific failed, or the last asked one did; limited otherwise.
   */
  lemma {:induction false} VerdictOfARun(node: Node, attributeKeys: set<string>, config: Config,
      device: string -> CommandResult) returns (k: nat)
    requires Plan(node, attributeKeys, config) != []
    ensures var cs, updated := Plan(node, attributeKeys, config), ProbedNode(node, attributeKeys, config, device);
            && AsksFirst(cs, config.mode, device, k) && k > 0
            && (updated.lastOk == Some(true) <==> SomeSucceeds(cs, device, k))
            && (updated.lastOk == Some(false) <==>
                  (!SomeSucceeds(cs, device, k)
                   && (SomeOtherFails(cs, device, k) || Fails(device(cs[k - 1].path)))))
            && (updated.limited <==> updated.lastOk == None)
  {
    var d: nat;
    k, d := RunConcludes(node, attributeKeys, config, device);
    DecisiveVerdict(Plan(node, attributeKeys, config), device, k, d);
  }

  lemma DecisiveVerdict(cs: seq<Candidate>, device: string -> CommandResult, k: nat, d: nat)
    requires 0 < k <= |cs| && d < k && Decides(cs, device, k, d)
    ensures Succeeds(device(cs[d].path)) <==> SomeSucceeds(cs, device, k)
    ensures Fails(device(cs[d].path)) <==>
              (!SomeSucceeds(cs, device, k) && (SomeOtherFails(cs, device, k) || Fails(device(cs[k - 1].path))))
  {
    var answer := device(cs[d].path);
    if SomeSucceeds(cs, device, k) {
      var i :| 0 <= i < k && Succeeds(device(cs[i].path));
      assert Finds(cs[i], device(cs[i].path), if cs[i].weight == DeviceSpecific then SpecificSuccess else OtherSuccess);
    } else if SomeOtherFails(cs, device, k) {
      var i :| 0 <= i < k && cs[i].weight != DeviceSpecific && Fails(device(cs[i].path));
      assert Finds(cs[i], device(cs[i].path), OtherFailure);
    }
  }
}
