/**
 What a probe plan is made of and in which order, told from the configuration and the node: six
 sources of paths, one after the other, each path once and at its first place.
 */
module ProbeSources {
  import opened Containers
  import opened Decimal
  import opened Ranking
  import opened DiscoveredProbes
  import opened ProbePlanner

  // ----- the sources -----

  /** The six sources in priority order. */
  datatype Source = Preferred | CoveringStatus | LastSuccess | FoundOnNode | Fallback | Descriptors

  const SOURCES := [Preferred, CoveringStatus, LastSuccess, FoundOnNode, Fallback, Descriptors]

  /** The endpoints on which the node reports the cluster, ascending. */
  function EndpointsOn(keys: set<string>, cluster: int): seq<int> {
    SortedInts(set k | k in keys && ParsePath(k).Some? && ParsePath(k).value.cluster == cluster ::
        ParsePath(k).value.endpoint)
  }

  function OnEach(endpoints: seq<int>, cluster: int, attribute: int): seq<string> {
    seq(|endpoints|, i requires 0 <= i < |endpoints| => PathText(Path(endpoints[i], cluster, attribute)))
  }

  function PreferredPaths(node: Node, config: Config): seq<string> {
    if Format(node.nodeId) in config.perNode then config.perNode[Format(node.nodeId)].preferred else []
  }

  function SuccessPath(node: Node): seq<string> {
    if node.successPath.None? || node.successPath == Some("") || node.successPath.value in node.unsupported then []
    else [node.successPath.value]
  }

  /** The status of every reported window covering; of configured ones if the node only looks like one. */
  function CoveringPaths(covering: bool, keys: set<string>, config: Config): seq<string> {
    if EndpointsOn(keys, 258) != [] then OnEach(EndpointsOn(keys, 258), 258, 10)
    else if covering then config.windowCovering
    else []
  }

  function DescriptorPaths(keys: set<string>): seq<string> {
    if EndpointsOn(keys, 29) == [] then ["0/29/0"] else OnEach(EndpointsOn(keys, 29), 29, 0)
  }

  /** The paths of the six sources, each list in its order. */
  function PathLists(node: Node, keys: set<string>, config: Config): (lists: seq<seq<string>>)
    ensures |lists| == 6
  {
    var covering := node.coveringName || "Window Covering" in node.inferredTypes;
    [PreferredPaths(node, config),
     if config.mode == Conservative then [] else CoveringPaths(covering, keys, config),
     SuccessPath(node),
     PathTexts(FirstRanked(keys)),
     config.fallback,
     if config.mode == Diagnostic then DescriptorPaths(keys) else []]
  }

  function CaptionOf(cluster: int): string {
    match cluster
    case 40 => "Device info read check"
    case 258 => "Device attribute read check"
    case 29 => "Descriptor read check"
    case _ => "Discovered read check"
  }

  /** The candidate that a source makes of a path. */
  function Made(source: Source, node: Node, path: string): Candidate {
    match source
    case Preferred => Candidate("override", "Configured read check", path, true, Override)
    case CoveringStatus => Candidate("window_covering_status", "Window covering read check",
        path, false, DeviceSpecific)
    case LastSuccess =>
      Candidate(
        if node.successKind.None? || node.successKind == Some("") then "cached" else node.successKind.value,
        if node.caption.None? || node.caption == Some("") then "Previous read check" else node.caption.value,
        path, false, Generic)
    case FoundOnNode =>
      var caption := if ParsePath(path).Some? then CaptionOf(ParsePath(path).value.cluster) else CaptionOf(-1);
      Candidate("discovered", caption, path, false, Generic)
    case Fallback => Candidate("basic_information", "Basic read check", path, false, Generic)
    case Descriptors => Candidate("descriptor", "Descriptor read check", path, false, Generic)
  }

  lemma MadeHasPath(source: Source, node: Node, path: string)
    ensures Made(source, node, path).path == path
  {
  }

  /** All that a source makes of its paths. */
  function MadeOf(source: Source, node: Node, paths: seq<string>): seq<Candidate> {
    seq(|paths|, i requires 0 <= i < |paths| => Made(source, node, paths[i]))
  }

  // ----- blocks of candidates -----

  function Flat(blocks: seq<seq<Candidate>>): seq<Candidate> {
    if blocks == [] then [] else Flat(blocks[..|blocks| - 1]) + blocks[|blocks| - 1]
  }

  /** A place in the blocks: which block, and where in it. */
  datatype Place = Place(block: nat, index: nat)

  predicate Earlier(a: Place, b: Place) {
    a.block < b.block || (a.block == b.block && a.index < b.index)
  }

  predicate Within(place: Place, blocks: seq<seq<Candidate>>) {
    place.block < |blocks| && place.index < |blocks[place.block]|
  }

  function Locate(blocks: seq<seq<Candidate>>, x: nat): Place
    requires x < |Flat(blocks)|
  {
    var n := |blocks| - 1;
    if x < |Flat(blocks[..n])| then Locate(blocks[..n], x) else Place(n, x - |Flat(blocks[..n])|)
  }

  lemma {:induction false} LocateIs(blocks: seq<seq<Candidate>>, x: nat)
    requires x < |Flat(blocks)|
    ensures Within(Locate(blocks, x), blocks)
    ensures Flat(blocks)[x] == blocks[Locate(blocks, x).block][Locate(blocks, x).index]
    decreases |blocks|
  {
    var n := |blocks| - 1;
    if x < |Flat(blocks[..n])| {
      LocateIs(blocks[..n], x);
    }
  }

  lemma {:induction false} LocateIsMonotone(blocks: seq<seq<Candidate>>, x: nat, y: nat)
    requires x < y < |Flat(blocks)|
    ensures Earlier(Locate(blocks, x), Locate(blocks, y))
    decreases |blocks|
  {
    var n := |blocks| - 1;
    if y < |Flat(blocks[..n])| {
      LocateIsMonotone(blocks[..n], x, y);
    } else if x < |Flat(blocks[..n])| {
      LocateIs(blocks[..n], x);
    }
  }

  /** Where a place lies in the whole list. */
  lemma {:induction false} LocateBack(blocks: seq<seq<Candidate>>, place: Place) returns (x: nat)
    requires Within(place, blocks)
    ensures x < |Flat(blocks)| && Locate(blocks, x) == place
    decreases |blocks|
  {
    var n := |blocks| - 1;
    if place.block < n {
      x := LocateBack(blocks[..n], place);
    } else {
      x := |Flat(blocks[..n])| + place.index;
    }
  }

  // ----- first places -----

  lemma {:induction false} WithoutPositions(cs: seq<Candidate>, paths: set<string>) returns (qs: seq<nat>)
    ensures var ws := Without(cs, paths);
            && |qs| == |ws| && (forall i :: 0 <= i < |qs| ==> qs[i] < |cs| && ws[i] == cs[qs[i]])
            && (forall i, j :: 0 <= i < j < |qs| ==> qs[i] < qs[j])
  {
    qs := [];
    if cs != [] {
      var n := |cs| - 1;
      var before := WithoutPositions(cs[..n], paths);
      if cs[n].path in paths {
        qs := before;
      } else {
        qs := before + [n];
      }
    }
  }

  /** Positions in a list of the candidates that deduplication and striking out leave. */
  predicate FirstKept(cs: seq<Candidate>, kept: seq<Candidate>, xs: seq<nat>) {
    && |xs| == |kept|
    && (forall i :: 0 <= i < |xs| ==> xs[i] < |cs| && kept[i] == cs[xs[i]] && cs[xs[i]].path !in PathsOf(cs[..xs[i]]))
    && (forall i, j :: 0 <= i < j < |xs| ==> xs[i] < xs[j])
  }

  lemma FirstsAreKept(cs: seq<Candidate>)
    ensures FirstKept(cs, Deduped(cs), FirstPositions(cs))
  {
    var ps := FirstPositions(cs);
    DedupeKeepsFirsts(cs);
    forall i | 0 <= i < |ps| ensures cs[ps[i]].path !in PathsOf(cs[..ps[i]]) {
      assert ps[i] in ps;
    }
  }

  lemma KeptPositions(cs: seq<Candidate>, paths: set<string>) returns (xs: seq<nat>)
    ensures FirstKept(cs, Without(Deduped(cs), paths), xs)
  {
    FirstsAreKept(cs);
    var qs := WithoutPositions(Deduped(cs), paths);
    xs := Compose(cs, FirstPositions(cs), Deduped(cs), Without(Deduped(cs), paths), qs);
  }

  /** Positions in a selection, as positions in the list it is taken from. */
  lemma Compose(cs: seq<Candidate>, ps: seq<nat>, ds: seq<Candidate>, ws: seq<Candidate>,
      qs: seq<nat>) returns (xs: seq<nat>)
    requires FirstKept(cs, ds, ps) && |qs| == |ws|
    requires forall i :: 0 <= i < |qs| ==> qs[i] < |ds| && ws[i] == ds[qs[i]]
    requires forall i, j :: 0 <= i < j < |qs| ==> qs[i] < qs[j]
    ensures FirstKept(cs, ws, xs)
  {
    xs := seq(|qs|, i requires 0 <= i < |qs| => ps[qs[i]]);
  }

  // ----- the plan -----

  function KeysOf(node: Node, attributeKeys: set<string>): set<string> {
    if attributeKeys == {} then node.attributeKeys else attributeKeys
  }

  predicate Enabled(node: Node, config: Config) {
    config.mode != Disabled
    && !(Format(node.nodeId) in config.perNode && config.perNode[Format(node.nodeId)].disabled)
  }

  function Blocks(node: Node, lists: seq<seq<string>>): seq<seq<Candidate>>
    requires |lists| == 6
  {
    [MadeOf(Preferred, node, lists[0]), MadeOf(CoveringStatus, node, lists[1]), MadeOf(LastSuccess, node, lists[2]),
     MadeOf(FoundOnNode, node, lists[3]), MadeOf(Fallback, node, lists[4]), MadeOf(Descriptors, node, lists[5])]
  }

  lemma FlatThree(a: seq<Candidate>, b: seq<Candidate>, c: seq<Candidate>)
    ensures Flat([a, b, c]) == a + b + c
  {
    assert [a, b, c][..2] == [a, b] && [a, b][..1] == [a] && [a][..0] == [];
    assert Flat([a]) == a && Flat([a, b]) == a + b;
  }

  lemma FlatSix(a: seq<Candidate>, b: seq<Candidate>, c: seq<Candidate>, d: seq<Candidate>, e: seq<Candidate>,
      f: seq<Candidate>)
    ensures Flat([a, b, c, d, e, f]) == (a + b) + c + ((d + e) + f)
  {
    var blocks := [a, b, c, d, e, f];
    assert blocks[..5] == [a, b, c, d, e] && blocks[..5][..4] == [a, b, c, d] && [a, b, c, d][..3] == [a, b, c];
    FlatThree(a, b, c);
    assert Flat([a, b, c, d]) == Flat([a, b, c]) + d;
    assert Flat([a, b, c, d, e]) == Flat([a, b, c, d]) + e;
  }

  // ----- the planner's lists are those of the sources -----

  lemma SameEndpoints(keys: set<string>, cluster: int)
    ensures EndpointsOn(keys, cluster) == EndpointsWithCluster(keys, cluster)
  {
    assert EndpointSet(keys, cluster) ==
      set k | k in keys && ParsePath(k).Some? && ParsePath(k).value.cluster == cluster :: ParsePath(k).value.endpoint;
  }

  lemma SameTexts(endpoints: seq<int>, cluster: int, attribute: int)
    ensures OnEach(endpoints, cluster, attribute) == EndpointPaths(endpoints, cluster, attribute)
  {
  }

  lemma DefaultDescriptor()
    ensures PathText(Path(0, 29, 0)) == "0/29/0"
  {
    assert FormatNat(29) == FormatNat(2) + [DigitChar(9)];
  }

  lemma EachIsMade(node: Node, paths: seq<string>)
    ensures Each(paths, "override", "Configured read check", true, Override) == MadeOf(Preferred, node, paths)
    ensures Each(paths, "window_covering_status", "Window covering read check", false, DeviceSpecific) ==
              MadeOf(CoveringStatus, node, paths)
    ensures Each(paths, "basic_information", "Basic read check", false, Generic) == MadeOf(Fallback, node, paths)
    ensures Each(paths, "descriptor", "Descriptor read check", false, Generic) == MadeOf(Descriptors, node, paths)
  {
  }

  lemma PreferredAre(node: Node, config: Config)
    ensures OverrideCandidates(Get(config.perNode, Format(node.nodeId))) ==
              MadeOf(Preferred, node, PreferredPaths(node, config))
  {
    EachIsMade(node, PreferredPaths(node, config));
  }

  lemma CoveringAre(node: Node, covering: bool, keys: set<string>, config: Config)
    ensures DeviceSpecificCandidates(covering, keys, config) ==
              MadeOf(CoveringStatus, node, CoveringPaths(covering, keys, config))
  {
    SameEndpoints(keys, 258);
    SameTexts(EndpointsOn(keys, 258), 258, 10);
    EachIsMade(node, CoveringPaths(covering, keys, config));
  }

  lemma SuccessIs(node: Node)
    ensures CachedSuccess(node.successPath, node.successKind, node.caption, Unsupported(node)) ==
              MadeOf(LastSuccess, node, SuccessPath(node))
  {
  }

  lemma OneFound(p: Path, node: Node)
    ensures Candidate("discovered", ClusterCaption(p.cluster), PathText(p), false, Generic) ==
              Made(FoundOnNode, node, PathText(p))
  {
    ParsePathText(p);
  }

  lemma FoundAre(node: Node, keys: set<string>)
    ensures Discovered(keys) == MadeOf(FoundOnNode, node, PathTexts(FirstRanked(keys)))
  {
    var best, made := FirstRanked(keys), MadeOf(FoundOnNode, node, PathTexts(FirstRanked(keys)));
    forall i | 0 <= i < |best| ensures Discovered(keys)[i] == made[i] {
      OneFound(best[i], node);
    }
  }

  lemma DescriptorsAre(node: Node, keys: set<string>)
    ensures DescriptorCandidates(keys) == MadeOf(Descriptors, node, DescriptorPaths(keys))
  {
    DefaultDescriptor();
    SameEndpoints(keys, 29);
    SameTexts(EndpointsOn(keys, 29), 29, 0);
    EachIsMade(node, DescriptorPaths(keys));
  }

  lemma NothingMade(source: Source, node: Node, cs: seq<Candidate>)
    ensures MadeOf(source, node, []) == [] && cs + [] == cs
  {
  }

  lemma FrontIs(node: Node, keys: set<string>, config: Config, a: seq<string>, b: seq<string>)
    requires config.mode != Disabled && a == PreferredPaths(node, config)
    requires b == if config.mode == Conservative then [] else CoveringPaths(InferredCovering(node), keys, config)
    ensures Front(node.nodeId, InferredCovering(node), keys, config) ==
              MadeOf(Preferred, node, a) + MadeOf(CoveringStatus, node, b)
  {
    PreferredAre(node, config);
    CoveringAre(node, InferredCovering(node), keys, config);
    NothingMade(CoveringStatus, node, MadeOf(Preferred, node, a));
  }

  lemma BackIs(node: Node, keys: set<string>, config: Config, d: seq<string>, f: seq<string>)
    requires d == PathTexts(FirstRanked(keys)) && f == if config.mode == Diagnostic then DescriptorPaths(keys) else []
    ensures Back(keys, config) ==
              (MadeOf(FoundOnNode, node, d) + MadeOf(Fallback, node, config.fallback)) + MadeOf(Descriptors, node, f)
  {
    FoundAre(node, keys);
    EachIsMade(node, config.fallback);
    DescriptorsAre(node, keys);
    NothingMade(Descriptors, node, Discovered(keys) + GenericCandidates(config));
  }

  lemma FlatBlocks(node: Node, l: seq<seq<string>>)
    requires |l| == 6
    ensures Flat(Blocks(node, l)) ==
              (MadeOf(Preferred, node, l[0]) + MadeOf(CoveringStatus, node, l[1])) + MadeOf(LastSuccess, node, l[2])
              + ((MadeOf(FoundOnNode, node, l[3]) + MadeOf(Fallback, node, l[4])) + MadeOf(Descriptors, node, l[5]))
  {
    FlatSix(MadeOf(Preferred, node, l[0]), MadeOf(CoveringStatus, node, l[1]), MadeOf(LastSuccess, node, l[2]),
      MadeOf(FoundOnNode, node, l[3]), MadeOf(Fallback, node, l[4]), MadeOf(Descriptors, node, l[5]));
  }

  lemma ThreeParts(node: Node, keys: set<string>, config: Config, front: seq<Candidate>, cached: seq<Candidate>,
      back: seq<Candidate>)
    requires front == Front(node.nodeId, InferredCovering(node), keys, config) && back == Back(keys, config)
    requires cached == CachedSuccess(node.successPath, node.successKind, node.caption, Unsupported(node))
    ensures Concatenation(node, keys, config, Unsupported(node)) == front + cached + back
  {
  }

  lemma BlocksMakeThePlan(node: Node, keys: set<string>, config: Config)
    requires config.mode != Disabled
    ensures Flat(Blocks(node, PathLists(node, keys, config))) == Concatenation(node, keys, config, Unsupported(node))
  {
    var l := PathLists(node, keys, config);
    FlatBlocks(node, l);
    FrontIs(node, keys, config, l[0], l[1]);
    SuccessIs(node);
    BackIs(node, keys, config, l[3], l[5]);
    ThreeParts(node, keys, config, MadeOf(Preferred, node, l[0]) + MadeOf(CoveringStatus, node, l[1]),
      MadeOf(LastSuccess, node, l[2]),
      (MadeOf(FoundOnNode, node, l[3]) + MadeOf(Fallback, node, l[4])) + MadeOf(Descriptors, node, l[5]));
  }

  // ----- places of paths -----

  /** The path stands at this place of the lists. */
  predicate StandsAt(path: string, place: Place, lists: seq<seq<string>>) {
    place.block < |lists| && place.index < |lists[place.block]| && lists[place.block][place.index] == path
  }

  /** ... and nowhere before. */
  ghost predicate StandsFirstAt(path: string, place: Place, lists: seq<seq<string>>) {
    StandsAt(path, place, lists) && forall p: Place :: Earlier(p, place) ==> !StandsAt(path, p, lists)
  }

  /** What stands at a place of the blocks. */
  lemma MadeAt(node: Node, lists: seq<seq<string>>, place: Place)
    requires |lists| == 6 && place.block < 6
    ensures var paths, bs := lists[place.block], Blocks(node, lists);
            && (Within(place, bs) <==> place.index < |paths|)
            && (Within(place, bs) ==>
                  bs[place.block][place.index] == Made(SOURCES[place.block], node, paths[place.index])
                  && bs[place.block][place.index].path == paths[place.index])
  {
    if place.index < |lists[place.block]| {
      MadeHasPath(SOURCES[place.block], node, lists[place.block][place.index]);
    }
  }

  lemma EarlierIsBefore(blocks: seq<seq<Candidate>>, y: nat, x: nat)
    requires x < |Flat(blocks)| && y < |Flat(blocks)| && Earlier(Locate(blocks, y), Locate(blocks, x))
    ensures y < x
  {
    if x < y {
      LocateIsMonotone(blocks, x, y);
    }
  }

  lemma EarlierPath(cs: seq<Candidate>, y: nat, x: nat)
    requires y < x < |cs|
    ensures cs[y].path in PathsOf(cs[..x])
  {
    assert cs[..x][y] in cs[..x];
  }

  lemma FirstInBlocks(node: Node, lists: seq<seq<string>>, x: nat)
    requires |lists| == 6 && x < |Flat(Blocks(node, lists))|
    requires var all := Flat(Blocks(node, lists)); all[x].path !in PathsOf(all[..x])
    ensures var all, place := Flat(Blocks(node, lists)), Locate(Blocks(node, lists), x);
            && place.block < 6 && StandsFirstAt(all[x].path, place, lists)
            && all[x] == Made(SOURCES[place.block], node, all[x].path)
  {
    var bs, all := Blocks(node, lists), Flat(Blocks(node, lists));
    var place := Locate(bs, x);
    LocateIs(bs, x);
    MadeAt(node, lists, place);
    forall p: Place | Earlier(p, place) ensures !StandsAt(all[x].path, p, lists) {
      if StandsAt(all[x].path, p, lists) {
        NotEarlier(node, lists, x, p);
      }
    }
  }

  lemma NotEarlier(node: Node, lists: seq<seq<string>>, x: nat, p: Place)
    requires |lists| == 6 && x < |Flat(Blocks(node, lists))| && Earlier(p, Locate(Blocks(node, lists), x))
    requires StandsAt(Flat(Blocks(node, lists))[x].path, p, lists)
    ensures var all := Flat(Blocks(node, lists)); all[x].path in PathsOf(all[..x])
  {
    var bs, all := Blocks(node, lists), Flat(Blocks(node, lists));
    MadeAt(node, lists, p);
    var y := LocateBack(bs, p);
    LocateIs(bs, y);
    EarlierIsBefore(bs, y, x);
    EarlierPath(all, y, x);
  }

  /** Each candidate of the plan comes from the first place of its path, and they come in the order of these places. */
  ghost predicate InOrderOfPlaces(plan: seq<Candidate>, places: seq<Place>, node: Node, lists: seq<seq<string>>)
    requires |lists| == 6
  {
    && |places| == |plan|
    && (forall i :: 0 <= i < |plan| ==> StandsFirstAt(plan[i].path, places[i], lists))
    && (forall i :: 0 <= i < |plan| ==>
          places[i].block < 6 && plan[i] == Made(SOURCES[places[i].block], node, plan[i].path))
    && (forall i, j :: 0 <= i < j < |plan| ==> Earlier(places[i], places[j]))
  }

  /**
   In every enabled plan: each candidate is the one that the source of its path's first place makes
   (preferred paths, window covering, last success, found on the node, fallback, descriptors), and
   the candidates come in the order of these places.
   */
  lemma {:induction false} PlanFollowsTheSources(node: Node, attributeKeys: set<string>, config: Config)
    returns (places: seq<Place>)
    requires Enabled(node, config)
    ensures InOrderOfPlaces(Plan(node, attributeKeys, config), places, node,
                            PathLists(node, KeysOf(node, attributeKeys), config))
  {
    var keys := KeysOf(node, attributeKeys);
    BlocksMakeThePlan(node, keys, config);
    places := PlacesOf(node, PathLists(node, keys, config), Unsupported(node));
  }

  lemma PlacesOf(node: Node, lists: seq<seq<string>>, paths: set<string>) returns (places: seq<Place>)
    requires |lists| == 6
    ensures InOrderOfPlaces(Without(Deduped(Flat(Blocks(node, lists))), paths), places, node, lists)
  {
    var bs := Blocks(node, lists);
    var all := Flat(bs);
    var xs := KeptPositions(all, paths);
    places := seq(|xs|, i requires 0 <= i < |xs| => Locate(bs, xs[i]));
    forall i | 0 <= i < |xs|
      ensures StandsFirstAt(all[xs[i]].path, places[i], lists)
      ensures places[i].block < 6 && all[xs[i]] == Made(SOURCES[places[i].block], node, all[xs[i]].path)
    {
      FirstInBlocks(node, lists, xs[i]);
    }
    forall i, j | 0 <= i < j < |xs| ensures Earlier(places[i], places[j]) {
      LocateIsMonotone(bs, xs[i], xs[j]);
    }
  }

  predicate IsListed(path: string, lists: seq<seq<string>>) {
    exists r :: 0 <= r < |lists| && path in lists[r]
  }

  /** Which paths an enabled plan asks: those of the sources that are not known to be unsupported. */
  lemma {:induction false} PlannedPaths(node: Node, attributeKeys: set<string>, config: Config, path: string)
    requires Enabled(node, config)
    ensures path in PathsOf(Plan(node, attributeKeys, config)) <==>
              path !in node.unsupported && IsListed(path, PathLists(node, KeysOf(node, attributeKeys), config))
  {
    var keys := KeysOf(node, attributeKeys);
    var lists := PathLists(node, keys, config);
    var all := Flat(Blocks(node, lists));
    BlocksMakeThePlan(node, keys, config);
    DedupedPaths(all);
    WithoutPaths(Deduped(all), Unsupported(node));
    FlatPaths(node, lists, path);
  }

  lemma FlatPaths(node: Node, lists: seq<seq<string>>, path: string)
    requires |lists| == 6
    ensures path in PathsOf(Flat(Blocks(node, lists))) <==> IsListed(path, lists)
  {
    var all := Flat(Blocks(node, lists));
    if path in PathsOf(all) {
      var x :| 0 <= x < |all| && all[x].path == path;
      FromSomeSource(node, lists, x);
    }
    if r :| 0 <= r < 6 && path in lists[r] {
      SourceIsFlat(node, lists, r, path);
    }
  }

  lemma FromSomeSource(node: Node, lists: seq<seq<string>>, x: nat)
    requires |lists| == 6 && x < |Flat(Blocks(node, lists))|
    ensures IsListed(Flat(Blocks(node, lists))[x].path, lists)
  {
    var bs := Blocks(node, lists);
    var place := Locate(bs, x);
    LocateIs(bs, x);
    MadeAt(node, lists, place);
    assert Flat(bs)[x].path in lists[place.block];
  }

  lemma SourceIsFlat(node: Node, lists: seq<seq<string>>, r: nat, path: string)
    requires |lists| == 6 && r < 6 && path in lists[r]
    ensures path in PathsOf(Flat(Blocks(node, lists)))
  {
    var bs := Blocks(node, lists);
    var i :| 0 <= i < |lists[r]| && lists[r][i] == path;
    MadeAt(node, lists, Place(r, i));
    var x := LocateBack(bs, Place(r, i));
    LocateIs(bs, x);
    InPaths(Flat(bs), x);
  }

  lemma InPaths(cs: seq<Candidate>, x: nat)
    requires x < |cs|
    ensures cs[x].path in PathsOf(cs)
  {
    assert cs[x] in cs;
  }

  /** A disabled plan is empty. */
  lemma {:induction false} DisabledPlansAreEmpty(node: Node, attributeKeys: set<string>, config: Config)
    requires !Enabled(node, config)
    ensures Plan(node, attributeKeys, config) == []
  {
  }

  // ----- the order of what is found on the node -----

  /** Where the attribute of a path stands among those preferred for its cluster, `None` for any other. */
  function Preference(p: Path): Option<int> {
    match (p.cluster, p.attribute)
    case (40, 2) => Some(0) case (40, 4) => Some(1) case (40, 5) => Some(2) case (40, 3) => Some(3)
    case (40, 1) => Some(4) case (40, 0) => Some(5) case (40, 7) => Some(6) case (40, 8) => Some(7)
    case (258, 10) => Some(0) case (258, 0) => Some(1) case (258, 7) => Some(2)
    case (258, 8) => Some(3) case (258, 11) => Some(4) case (258, 12) => Some(5)
    case (29, 0) => Some(0) case (29, 1) => Some(1) case (29, 2) => Some(2)
    case _ => None
  }

  function ClusterPlace(cluster: int): int {
    match cluster case 40 => 0 case 258 => 1 case 29 => 2 case _ => 3
  }

  /** Basic information, window covering, descriptor, each by attribute and endpoint; then the others by path. */
  predicate Before(p: Path, q: Path) {
    var a, b := ClusterPlace(p.cluster), ClusterPlace(q.cluster);
    a < b || (a == b &&
      if a < 3 then
        Preference(p).GetOr(0) < Preference(q).GetOr(0)
        || (Preference(p) == Preference(q) && p.endpoint < q.endpoint)
      else
        p.endpoint < q.endpoint || (p.endpoint == q.endpoint &&
          (p.cluster < q.cluster || (p.cluster == q.cluster && p.attribute < q.attribute))))
  }

  lemma RankIs(p: Path)
    ensures Prioritised(p) <==> Preference(p).Some?
    ensures Prioritised(p) ==> RankOf(p) == Rank(ClusterPlace(p.cluster), Preference(p).value, p.endpoint, 0)
    ensures !Prioritised(p) && Eligible(p) ==> RankOf(p) == Rank(3, p.endpoint, p.cluster, p.attribute)
    ensures Prioritised(p) ==> ClusterPlace(p.cluster) < 3
    ensures !Prioritised(p) && Eligible(p) ==> ClusterPlace(p.cluster) == 3
  {
    if p.cluster == 40 {
      BasicRanks(p);
    }
  }

  lemma BasicRanks(p: Path)
    requires p.cluster == 40
    ensures Prioritised(p) <==> Preference(p).Some?
    ensures Prioritised(p) ==> RankOf(p) == Rank(0, Preference(p).value, p.endpoint, 0)
  {
    var rest := Priorities(40);
    assert rest[1..] == [4, 5, 3, 1, 0, 7, 8] && rest[1..][1..] == [5, 3, 1, 0, 7, 8];
    assert [5, 3, 1, 0, 7, 8][1..] == [3, 1, 0, 7, 8] && [3, 1, 0, 7, 8][1..] == [1, 0, 7, 8];
  }

  /** Which paths are read when found, and in which order. */
  lemma {:induction false} FoundInOrder(p: Path, q: Path)
    ensures Eligible(p) <==> Preference(p).Some? || p.cluster in {3, 6, 8}
    ensures Eligible(p) && Eligible(q) ==> (Less(RankOf(p), RankOf(q)) <==> Before(p, q))
    ensures MAX_DISCOVERED == 12
  {
    RankIs(p);
    RankIs(q);
  }
}
