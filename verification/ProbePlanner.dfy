/**
 The probe planner: an ordered list of read candidates without repeated paths and without the
 paths a node has already answered "unsupported" for.
 */
module ProbePlanner {
  import opened Containers
  import opened Decimal
  import opened Ranking
  import opened DiscoveredProbes

  datatype Mode = Disabled | Conservative | Standard | Diagnostic

  datatype Weight = Generic | Override | DeviceSpecific

  datatype Candidate = Candidate(kind: string, caption: string, path: string, required: bool, weight: Weight)

  datatype NodeOverride = NodeOverride(preferred: seq<string>, disabled: bool)

  datatype Config = Config(
    mode: Mode, windowCovering: seq<string>, fallback: seq<string>, perNode: map<string, NodeOverride>)

  /**
   The fields of a stored node that planning and probing use. `coveringName` says whether the
   lower-cased product name contains "blind" or "shade".
   */
  datatype Node = Node(
    nodeId: int,
    available: bool,
    coveringName: bool,
    attributeKeys: set<string>,
    inferredTypes: seq<string>,
    successPath: Option<string>,
    successKind: Option<string>,
    caption: Option<string>,
    unsupported: seq<string>,
    lastOk: Option<bool>,
    limited: bool,
    lastPath: Option<string>,
    lastError: Option<string>,
    lastDuration: Option<int>)

  // ----- deduplication -----

  function PathsOf(cs: seq<Candidate>): set<string> {
    set c | c in cs :: c.path
  }

  /** The first candidate for each path. */
  function Deduped(cs: seq<Candidate>): seq<Candidate> {
    if cs == [] then [] else
    var before, c := cs[..|cs| - 1], cs[|cs| - 1];
    if c.path in PathsOf(before) then Deduped(before) else Deduped(before) + [c]
  }

  /** `_dedupe_candidates`. */
  method DedupeCandidates(candidates: seq<Candidate>) returns (ordered: seq<Candidate>)
    ensures ordered == Deduped(candidates)
  {
    var seen: set<string> := {};
    ordered := [];
    for i := 0 to |candidates|
      invariant seen == PathsOf(candidates[..i])
      invariant ordered == Deduped(candidates[..i])
    {
      var candidate := candidates[i];
      assert candidates[..i + 1][..i] == candidates[..i];
      assert candidates[..i + 1] == candidates[..i] + [candidate];
      if candidate.path in seen {
        continue;
      }
      seen := seen + {candidate.path};
      ordered := ordered + [candidate];
    }
    assert candidates[..|candidates|] == candidates;
  }

  /** Positions whose path does not occur earlier, ascending. */
  function FirstPositions(cs: seq<Candidate>): (ps: seq<nat>)
    ensures forall i :: 0 <= i < |ps| ==> ps[i] < |cs|
    ensures forall i, j :: 0 <= i < j < |ps| ==> ps[i] < ps[j]
  {
    if cs == [] then [] else
    var before := cs[..|cs| - 1];
    if cs[|cs| - 1].path in PathsOf(before) then FirstPositions(before) else FirstPositions(before) + [|cs| - 1]
  }

  lemma {:induction false} FirstPositionsAreFirst(cs: seq<Candidate>, j: nat)
    requires j < |cs|
    ensures j in FirstPositions(cs) <==> cs[j].path !in PathsOf(cs[..j])
  {
    var n := |cs| - 1;
    if j < n {
      FirstPositionsAreFirst(cs[..n], j);
      assert cs[..n][..j] == cs[..j];
    }
  }

  /** Deduplication keeps, in order, exactly the candidates that are first for their path. */
  lemma {:induction false} DedupeKeepsFirsts(cs: seq<Candidate>)
    ensures var ps, ds := FirstPositions(cs), Deduped(cs);
            |ds| == |ps| && forall i :: 0 <= i < |ps| ==> ds[i] == cs[ps[i]]
    ensures forall j :: 0 <= j < |cs| ==> (j in FirstPositions(cs) <==> cs[j].path !in PathsOf(cs[..j]))
  {
    forall j | 0 <= j < |cs| ensures j in FirstPositions(cs) <==> cs[j].path !in PathsOf(cs[..j]) {
      FirstPositionsAreFirst(cs, j);
    }
    if cs != [] {
      DedupeKeepsFirsts(cs[..|cs| - 1]);
    }
  }

  predicate DistinctPaths(cs: seq<Candidate>) {
    forall i, j :: 0 <= i < j < |cs| ==> cs[i].path != cs[j].path
  }

  lemma {:induction false} DedupedPaths(cs: seq<Candidate>)
    ensures PathsOf(Deduped(cs)) == PathsOf(cs) && DistinctPaths(Deduped(cs))
  {
    if cs != [] {
      var before, c := cs[..|cs| - 1], cs[|cs| - 1];
      DedupedPaths(before);
      assert cs == before + [c];
      assert PathsOf(cs) == PathsOf(before) + {c.path};
      var ds := Deduped(before);
      assert forall i :: 0 <= i < |ds| ==> ds[i].path in PathsOf(ds);
      assert PathsOf(ds + [c]) == PathsOf(ds) + {c.path};
    }
  }

  // ----- leaving out unsupported paths -----

  /** The candidates whose path is not in `paths`. */
  function Without(cs: seq<Candidate>, paths: set<string>): seq<Candidate> {
    if cs == [] then [] else
    var before, c := cs[..|cs| - 1], cs[|cs| - 1];
    Without(before, paths) + if c.path in paths then [] else [c]
  }

  lemma WithoutAppend(cs: seq<Candidate>, c: Candidate, paths: set<string>)
    ensures Without(cs + [c], paths) == Without(cs, paths) + if c.path in paths then [] else [c]
  {
    assert (cs + [c])[..|cs|] == cs;
  }

  lemma {:induction false} WithoutConcat(a: seq<Candidate>, b: seq<Candidate>, paths: set<string>)
    ensures Without(a + b, paths) == Without(a, paths) + Without(b, paths)
  {
    if b == [] {
      assert a + b == a;
    } else {
      var n := |b| - 1;
      WithoutConcat(a, b[..n], paths);
      assert (a + b)[..|a + b| - 1] == a + b[..n];
    }
  }

  lemma PathsAppend(cs: seq<Candidate>, c: Candidate)
    ensures PathsOf(cs + [c]) == PathsOf(cs) + {c.path}
  {
    forall path | path in PathsOf(cs) ensures path in PathsOf(cs + [c]) {
      var d :| d in cs && d.path == path;
      assert d in cs + [c];
    }
    assert c in cs + [c];
  }

  lemma {:induction false} WithoutPaths(cs: seq<Candidate>, paths: set<string>)
    ensures PathsOf(Without(cs, paths)) == PathsOf(cs) - paths
    ensures forall c :: c in Without(cs, paths) ==> c in cs
  {
    if cs != [] {
      var before, c := cs[..|cs| - 1], cs[|cs| - 1];
      WithoutPaths(before, paths);
      assert cs == before + [c];
      PathsAppend(before, c);
      PathsAppend(Without(before, paths), c);
      assert Without(before, paths) + [] == Without(before, paths);
    }
  }

  lemma {:induction false} WithoutTwice(cs: seq<Candidate>, fewer: set<string>, more: set<string>)
    requires fewer <= more
    ensures Without(Without(cs, fewer), more) == Without(cs, more)
  {
    if cs != [] {
      var before, c := cs[..|cs| - 1], cs[|cs| - 1];
      var ws := Without(before, fewer);
      WithoutTwice(before, fewer, more);
      WithoutAppend(ws, c, more);
      assert c.path in fewer ==> ws + [] == ws && Without(before, more) + [] == Without(before, more);
    }
  }

  lemma DedupedAppend(cs: seq<Candidate>, c: Candidate)
    ensures Deduped(cs + [c]) == if c.path in PathsOf(cs) then Deduped(cs) else Deduped(cs) + [c]
  {
    assert (cs + [c])[..|cs|] == cs;
  }

  lemma DroppedAtOnce(before: seq<Candidate>, c: Candidate, paths: set<string>)
    requires c.path in paths
    ensures Without(Deduped(before + [c]), paths) == Without(Deduped(before), paths)
    ensures Without(before + [c], paths) == Without(before, paths)
  {
    DedupedAppend(before, c);
    WithoutAppend(Deduped(before), c, paths);
    WithoutAppend(before, c, paths);
  }

  /** Dropping paths and keeping first occurrences commute. */
  lemma {:induction false} DedupeCommutes(cs: seq<Candidate>, paths: set<string>)
    ensures Without(Deduped(cs), paths) == Deduped(Without(cs, paths))
  {
    if cs != [] {
      var before, c := cs[..|cs| - 1], cs[|cs| - 1];
      var ws := Without(before, paths);
      DedupeCommutes(before, paths);
      assert cs == before + [c];
      if c.path in paths {
        DroppedAtOnce(before, c, paths);
      } else if c.path in PathsOf(before) {
        WithoutPaths(before, paths);
        DedupedAppend(ws, c);
      } else {
        WithoutPaths(before, paths);
        DedupedAppend(ws, c);
        WithoutAppend(Deduped(before), c, paths);
      }
    }
  }

  // ----- the sources of candidates -----

  function ClusterCaption(cluster: int): string {
    if cluster == BASIC_INFORMATION then "Device info read check"
    else if cluster == WINDOW_COVERING then "Device attribute read check"
    else if cluster == DESCRIPTOR then "Descriptor read check"
    else "Discovered read check"
  }

  function Each(paths: seq<string>, kind: string, caption: string, required: bool, weight: Weight): (cs: seq<Candidate>)
    ensures |cs| == |paths| && forall i :: 0 <= i < |cs| ==>
              cs[i] == Candidate(kind, caption, paths[i], required, weight)
  {
    seq(|paths|, i requires 0 <= i < |paths| => Candidate(kind, caption, paths[i], required, weight))
  }

  function OverrideCandidates(perNode: Option<NodeOverride>): seq<Candidate> {
    if perNode.None? then [] else Each(perNode.value.preferred, "override", "Configured read check", true, Override)
  }

  function CachedSuccess(path: Option<string>, kind: Option<string>, caption: Option<string>,
      unsupported: set<string>): seq<Candidate> {
    if path.GetOr("") == "" || path.value in unsupported then []
    else
      var kindOr := if kind.GetOr("") == "" then "cached" else kind.value;
      var captionOr := if caption.GetOr("") == "" then "Previous read check" else caption.value;
      [Candidate(kindOr, captionOr, path.value, false, Generic)]
  }

  /** The discovered candidates in the order `DiscoverPaths` finds them. */
  function Discovered(keys: set<string>): seq<Candidate> {
    var best := FirstRanked(keys);
    seq(|best|, i requires 0 <= i < |best| =>
      Candidate("discovered", ClusterCaption(best[i].cluster), PathText(best[i]), false, Generic))
  }

  function EndpointPaths(endpoints: seq<int>, cluster: int, attribute: int): seq<string> {
    PathTexts(seq(|endpoints|, i requires 0 <= i < |endpoints| => Path(endpoints[i], cluster, attribute)))
  }

  predicate InferredCovering(node: Node) {
    node.coveringName || "Window Covering" in node.inferredTypes
  }

  function DeviceSpecificCandidates(covering: bool, keys: set<string>, config: Config): seq<Candidate> {
    var endpoints := EndpointsWithCluster(keys, WINDOW_COVERING);
    var paths :=
      if endpoints != [] then EndpointPaths(endpoints, WINDOW_COVERING, 10)
      else if covering then config.windowCovering
      else [];
    Each(paths, "window_covering_status", "Window covering read check", false, DeviceSpecific)
  }

  function DescriptorCandidates(keys: set<string>): seq<Candidate> {
    var endpoints := EndpointsWithCluster(keys, DESCRIPTOR);
    var paths := if endpoints == [] then [PathText(Path(0, DESCRIPTOR, 0))]
        else EndpointPaths(endpoints, DESCRIPTOR, 0);
    Each(paths, "descriptor", "Descriptor read check", false, Generic)
  }

  function GenericCandidates(config: Config): seq<Candidate> {
    Each(config.fallback, "basic_information", "Basic read check", false, Generic)
  }

  // ----- the plan -----

  /** What comes before the cached path, in priority order. */
  function Front(nodeId: int, covering: bool, keys: set<string>, config: Config): seq<Candidate> {
    var overrides := OverrideCandidates(Get(config.perNode, Format(nodeId)));
    if config.mode.Standard? || config.mode.Diagnostic?
        then overrides + DeviceSpecificCandidates(covering, keys, config)
    else overrides
  }

  /** What comes after the cached path, in priority order. */
  function Back(keys: set<string>, config: Config): seq<Candidate> {
    var known := Discovered(keys) + GenericCandidates(config);
    if config.mode.Diagnostic? then known + DescriptorCandidates(keys) else known
  }

  function Concatenation(node: Node, keys: set<string>, config: Config, unsupported: set<string>): seq<Candidate> {
    Front(node.nodeId, InferredCovering(node), keys, config)
      + CachedSuccess(node.successPath, node.successKind, node.caption, unsupported)
      + Back(keys, config)
  }

  function Unsupported(node: Node): set<string> {
    set p | p in node.unsupported
  }

  function Plan(node: Node, attributeKeys: set<string>, config: Config): seq<Candidate> {
    var perNode := Get(config.perNode, Format(node.nodeId));
    var keys := if attributeKeys != {} then attributeKeys else node.attributeKeys;
    if config.mode.Disabled? || (perNode.Some? && perNode.value.disabled) then []
    else Without(Deduped(Concatenation(node, keys, config, Unsupported(node))), Unsupported(node))
  }

  lemma {:induction false} CachedCommutes(path: Option<string>, kind: Option<string>, caption: Option<string>,
      fewer: set<string>, more: set<string>)
    requires fewer <= more
    ensures Without(CachedSuccess(path, kind, caption, fewer), more) == CachedSuccess(path, kind, caption, more)
  {
    var cs := CachedSuccess(path, kind, caption, fewer);
    if cs != [] {
      assert cs[..0] == [];
    }
  }

  lemma MiddleCommutes(front: seq<Candidate>, was: seq<Candidate>, now: seq<Candidate>, back: seq<Candidate>,
      paths: set<string>)
    requires Without(was, paths) == Without(now, paths)
    ensures Without(front + was + back, paths) == Without(front + now + back, paths)
  {
    WithoutConcat(front + was, back, paths);
    WithoutConcat(front, was, paths);
    WithoutConcat(front + now, back, paths);
    WithoutConcat(front, now, paths);
  }

  lemma ConcatenationCommutes(node: Node, keys: set<string>, config: Config, fewer: set<string>, more: set<string>)
    requires fewer <= more
    ensures Without(Concatenation(node, keys, config, fewer), more) ==
              Without(Concatenation(node, keys, config, more), more)
  {
    var path, kind, caption := node.successPath, node.successKind, node.caption;
    CachedCommutes(path, kind, caption, fewer, more);
    CachedCommutes(path, kind, caption, more, more);
    MiddleCommutes(
      Front(node.nodeId, InferredCovering(node), keys, config),
      CachedSuccess(path, kind, caption, fewer), CachedSuccess(path, kind, caption, more), Back(keys, config), more);
  }

  /** The unsupported list reaches the concatenation only through the cached path. */
  lemma LearningOnlyDropsCached(node: Node, keys: set<string>, config: Config, learned: seq<string>, paths: set<string>)
    ensures Concatenation(node.(unsupported := learned), keys, config, paths) ==
              Concatenation(node, keys, config, paths)
  {
  }

  lemma StrikeOut(was: seq<Candidate>, now: seq<Candidate>, fewer: set<string>, more: set<string>)
    requires fewer <= more && Without(was, more) == Without(now, more)
    ensures Without(Deduped(now), more) == Without(Without(Deduped(was), fewer), more)
  {
    WithoutTwice(Deduped(was), fewer, more);
    DedupeCommutes(was, more);
    DedupeCommutes(now, more);
  }

  /**
   Planning commutes with learning: the plan made with more unsupported paths is the plan made
   with fewer, with the additional paths struck out.
   */
  lemma {:induction false} PlanCommutesWithLearning(node: Node, attributeKeys: set<string>, config: Config,
      learned: seq<string>)
    requires Unsupported(node) <= Unsupported(node.(unsupported := learned))
    ensures Plan(node.(unsupported := learned), attributeKeys, config)
         == Without(Plan(node, attributeKeys, config), Unsupported(node.(unsupported := learned)))
  {
    var fewer, more := Unsupported(node), Unsupported(node.(unsupported := learned));
    var keys := if attributeKeys != {} then attributeKeys else node.attributeKeys;
    LearningOnlyDropsCached(node, keys, config, learned, more);
    ConcatenationCommutes(node, keys, config, fewer, more);
    StrikeOut(Concatenation(node, keys, config, fewer), Concatenation(node, keys, config, more), fewer, more);
  }

  lemma {:induction false} WithoutKeepsDistinct(cs: seq<Candidate>, paths: set<string>)
    requires DistinctPaths(cs)
    ensures DistinctPaths(Without(cs, paths))
  {
    if cs != [] {
      var before, c := cs[..|cs| - 1], cs[|cs| - 1];
      WithoutKeepsDistinct(before, paths);
      WithoutPaths(before, paths);
      var ws := Without(before, paths);
      forall i | 0 <= i < |ws| ensures ws[i].path != c.path {
        assert ws[i] in before;
      }
    }
  }

  /** A plan names each path once and never one already known to be unsupported. */
  lemma {:induction false} PlanIsClean(node: Node, attributeKeys: set<string>, config: Config)
    ensures DistinctPaths(Plan(node, attributeKeys, config))
    ensures PathsOf(Plan(node, attributeKeys, config)) !! Unsupported(node)
  {
    var keys := if attributeKeys != {} then attributeKeys else node.attributeKeys;
    var ordered := Concatenation(node, keys, config, Unsupported(node));
    DedupedPaths(ordered);
    WithoutKeepsDistinct(Deduped(ordered), Unsupported(node));
    WithoutPaths(Deduped(ordered), Unsupported(node));
  }

  lemma {:induction false} DedupedFrom(cs: seq<Candidate>)
    ensures forall c :: c in Deduped(cs) ==> c in cs
  {
    if cs != [] {
      DedupedFrom(cs[..|cs| - 1]);
    }
  }

  predicate NoDeviceSpecific(cs: seq<Candidate>) {
    forall c :: c in cs ==> !c.weight.DeviceSpecific?
  }

  lemma ConservativeSources(node: Node, keys: set<string>, config: Config, unsupported: set<string>)
    requires config.mode.Conservative?
    ensures NoDeviceSpecific(Concatenation(node, keys, config, unsupported))
  {
    assert NoDeviceSpecific(Front(node.nodeId, InferredCovering(node), keys, config));
    assert NoDeviceSpecific(Back(keys, config));
  }

  /** In conservative mode no candidate is device specific. */
  lemma {:induction false} ConservativePlansAreGeneric(node: Node, attributeKeys: set<string>, config: Config)
    requires config.mode.Conservative?
    ensures NoDeviceSpecific(Plan(node, attributeKeys, config))
  {
    var keys := if attributeKeys != {} then attributeKeys else node.attributeKeys;
    var ordered := Concatenation(node, keys, config, Unsupported(node));
    WithoutPaths(Deduped(ordered), Unsupported(node));
    DedupedFrom(ordered);
    ConservativeSources(node, keys, config, Unsupported(node));
  }
}
