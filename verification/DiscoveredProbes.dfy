/**
 Probe paths discovered from the attribute keys a node reports: the first twelve in a fixed
 priority order, whatever order the key set is iterated in.
 */
module DiscoveredProbes {
  import opened Containers
  import opened Decimal
  import opened Ranking

  const BASIC_INFORMATION := 40
  const WINDOW_COVERING := 258
  const DESCRIPTOR := 29
  const MAX_DISCOVERED := 12

  const CLUSTER_ORDER: seq<int> := [BASIC_INFORMATION, WINDOW_COVERING, DESCRIPTOR]
  const EXTRA_CLUSTERS: set<int> := {6, 8, 3}

  /** Attributes to try per cluster, in preference order. */
  function Priorities(cluster: int): seq<int> {
    if cluster == BASIC_INFORMATION then [2, 4, 5, 3, 1, 0, 7, 8]
    else if cluster == WINDOW_COVERING then [10, 0, 7, 8, 11, 12]
    else if cluster == DESCRIPTOR then [0, 1, 2]
    else []
  }

  // ----- the priority order -----

  function IndexOf(s: seq<int>, x: int): (i: nat)
    requires x in s
    ensures i < |s| && s[i] == x
  {
    if s[0] == x then 0 else 1 + IndexOf(s[1..], x)
  }

  predicate Prioritised(p: Path) {
    p.attribute in Priorities(p.cluster)
  }

  predicate Eligible(p: Path) {
    Prioritised(p) || (p.cluster in EXTRA_CLUSTERS && p.cluster !in CLUSTER_ORDER)
  }

  /** Prioritised clusters by attribute preference and endpoint, then the extra clusters by path. */
  function RankOf(p: Path): Rank {
    if Prioritised(p) then
      Rank(IndexOf(CLUSTER_ORDER, p.cluster), IndexOf(Priorities(p.cluster), p.attribute), p.endpoint, 0)
    else Rank(if Eligible(p) then 3 else 4, p.endpoint, p.cluster, p.attribute)
  }

  lemma RankIsInjective()
    ensures Injective(RankOf)
  {
  }

  /** The eligible paths a node reports in their canonical text. */
  function Reported(keys: set<string>): (ps: set<Path>)
    ensures forall p :: p in ps <==> PathText(p) in keys && Eligible(p)
  {
    var ps := set k | k in keys && ParsePath(k).Some? && PathText(ParsePath(k).value) == k &&
        Eligible(ParsePath(k).value)
                :: ParsePath(k).value;
    assert forall p :: PathText(p) in keys && Eligible(p) ==> p in ps by {
      forall p | PathText(p) in keys && Eligible(p) ensures p in ps {
        ParsePathText(p);
      }
    }
    ps
  }

  /** The whole priority order of what a node reports, cut at the cap. */
  function FirstRanked(keys: set<string>): seq<Path> {
    RankIsInjective();
    Take(Ranked(Reported(keys), RankOf), MAX_DISCOVERED)
  }

  function PathTexts(ps: seq<Path>): (r: seq<string>)
    ensures |r| == |ps| && forall i :: 0 <= i < |ps| ==> r[i] == PathText(ps[i])
  {
    seq(|ps|, i requires 0 <= i < |ps| => PathText(ps[i]))
  }

  lemma TextsTell(ps: seq<Path>, p: Path)
    ensures PathText(p) in PathTexts(ps) <==> p in ps
  {
    var texts := PathTexts(ps);
    if p in ps {
      var i :| 0 <= i < |ps| && ps[i] == p;
      assert texts[i] == PathText(p);
    }
    if PathText(p) in texts {
      var i :| 0 <= i < |texts| && texts[i] == PathText(p);
      ParsePathText(p);
      ParsePathText(ps[i]);
    }
  }

  // ----- the source's own loops -----

  /** The key set that an iteration order lists. */
  function KeySet(keyOrder: seq<string>): set<string> {
    set k | k in keyOrder
  }

  predicate OnCluster(key: string, cluster: int) {
    ParsePath(key).Some? && ParsePath(key).value.cluster == cluster
  }

  function EndpointOf(key: string): int
    requires ParsePath(key).Some?
  {
    ParsePath(key).value.endpoint
  }

  function EndpointSet(keys: set<string>, cluster: int): set<int> {
    set k | k in keys && OnCluster(k, cluster) :: EndpointOf(k)
  }

  /** Endpoints of the keys that parse with the given cluster, ascending. */
  function EndpointsWithCluster(keys: set<string>, cluster: int): seq<int> {
    SortedInts(EndpointSet(keys, cluster))
  }

  lemma AddKey(keys: set<string>, key: string, cluster: int)
    ensures EndpointSet(keys + {key}, cluster) ==
              EndpointSet(keys, cluster) + if OnCluster(key, cluster) then {EndpointOf(key)} else {}
  {
  }

  /** `endpoints_with_cluster`, over any iteration order of the key set. */
  method CollectEndpoints(keyOrder: seq<string>, cluster: int) returns (endpoints: seq<int>)
    ensures endpoints == EndpointsWithCluster(KeySet(keyOrder), cluster)
  {
    var found: set<int> := {};
    for i := 0 to |keyOrder|
      invariant found == EndpointSet(KeySet(keyOrder[..i]), cluster)
    {
      AddKey(KeySet(keyOrder[..i]), keyOrder[i], cluster);
      assert KeySet(keyOrder[..i + 1]) == KeySet(keyOrder[..i]) + {keyOrder[i]};
      if OnCluster(keyOrder[i], cluster) {
        found := found + {EndpointOf(keyOrder[i])};
      }
    }
    assert keyOrder[..|keyOrder|] == keyOrder;
    endpoints := SortedInts(found);
  }

  lemma EndpointIsListed(keys: set<string>, p: Path)
    requires PathText(p) in keys
    ensures p.endpoint in EndpointsWithCluster(keys, p.cluster)
  {
    ParsePathText(p);
    assert OnCluster(PathText(p), p.cluster) && EndpointOf(PathText(p)) == p.endpoint;
  }

  predicate PathLe(a: Path, b: Path) {
    a.endpoint < b.endpoint || (a.endpoint == b.endpoint &&
    (a.cluster < b.cluster || (a.cluster == b.cluster && a.attribute <= b.attribute)))
  }

  predicate IsSorted(ps: seq<Path>) {
    forall i, j :: 0 <= i < j < |ps| ==> PathLe(ps[i], ps[j])
  }

  function InsertSorted(p: Path, ps: seq<Path>): (r: seq<Path>)
    requires IsSorted(ps)
    ensures IsSorted(r) && forall q :: q in r <==> q == p || q in ps
  {
    if ps == [] then [p]
    else if PathLe(p, ps[0]) then [p] + ps
    else
      var rest := InsertSorted(p, ps[1..]);
      assert ps == [ps[0]] + ps[1..];
      assert forall i :: 0 <= i < |rest| ==> rest[i] in rest && (rest[i] == p || rest[i] in ps[1..]);
      [ps[0]] + rest
  }

  /** `sorted(paths)`, duplicates kept. */
  function SortPaths(ps: seq<Path>): (r: seq<Path>)
    ensures IsSorted(r) && forall q :: q in r <==> q in ps
  {
    if ps == [] then [] else InsertSorted(ps[0], SortPaths(ps[1..]))
  }

  function ParseAll(keyOrder: seq<string>): (ps: seq<Path>)
    ensures forall p :: p in ps <==> exists k :: k in keyOrder && ParsePath(k) == Some(p)
  {
    if keyOrder == [] then [] else
    var rest := ParseAll(keyOrder[1..]);
    assert keyOrder == [keyOrder[0]] + keyOrder[1..];
    match ParsePath(keyOrder[0])
    case Some(p) => [p] + rest
    case None => rest
  }

  lemma ParsedCovers(keyOrder: seq<string>)
    ensures forall p :: p in Reported(KeySet(keyOrder)) ==> p in ParseAll(keyOrder)
  {
    forall p | p in Reported(KeySet(keyOrder)) ensures p in ParseAll(keyOrder) {
      ParsePathText(p);
      assert PathText(p) in keyOrder;
    }
  }

  /** Still ahead: attribute `attr` of cluster `group` at the endpoints `rest`, and all that follows. */
  predicate IsAhead(r: Rank, group: int, attr: int, rest: seq<int>) {
    r.group >= |CLUSTER_ORDER| || r.group > group ||
        (r.group == group && (r.first > attr || (r.first == attr && r.second in rest)))
  }

  function Ahead(keys: set<string>, group: int, attr: int, rest: seq<int>): set<Path> {
    set p | p in Reported(keys) && IsAhead(RankOf(p), group, attr, rest)
  }

  /** The extra paths not among those already visited. */
  function ExtraAhead(keys: set<string>, visited: seq<Path>): set<Path> {
    set p | p in Reported(keys) && !Prioritised(p) && p !in visited
  }

  lemma RankShape(p: Path)
    ensures Prioritised(p) ==>
              && 0 <= RankOf(p).group < |CLUSTER_ORDER| && CLUSTER_ORDER[RankOf(p).group] == p.cluster
              && 0 <= RankOf(p).first < |Priorities(p.cluster)| && Priorities(p.cluster)[RankOf(p).first] == p.attribute
              && RankOf(p).second == p.endpoint && RankOf(p).third == 0
    ensures !Prioritised(p) && Eligible(p) ==> RankOf(p) == Rank(3, p.endpoint, p.cluster, p.attribute)
  {
  }

  lemma RankAt(group: nat, attr: nat, endpoint: int)
    requires group < |CLUSTER_ORDER| && attr < |Priorities(CLUSTER_ORDER[group])|
    ensures var p := Path(endpoint, CLUSTER_ORDER[group], Priorities(CLUSTER_ORDER[group])[attr]);
            Prioritised(p) && RankOf(p) == Rank(group, attr, endpoint, 0)
  {
  }

  lemma StartAttribute(keys: set<string>, group: nat, attr: nat, endpoints: seq<int>)
    requires group < |CLUSTER_ORDER| && endpoints == EndpointsWithCluster(keys, CLUSTER_ORDER[group])
    ensures Ahead(keys, group, attr - 1, []) == Ahead(keys, group, attr, endpoints)
  {
    forall p | p in Reported(keys)
      ensures IsAhead(RankOf(p), group, attr - 1, []) <==> IsAhead(RankOf(p), group, attr, endpoints)
    {
      RankShape(p);
      EndpointIsListed(keys, p);
    }
  }

  lemma VisitEndpoint(keys: set<string>, group: nat, attr: nat, endpoints: seq<int>, e: nat)
    requires group < |CLUSTER_ORDER| && attr < |Priorities(CLUSTER_ORDER[group])| && e < |endpoints|
    requires forall i, j :: 0 <= i < j < |endpoints| ==> endpoints[i] < endpoints[j]
    ensures var p := Path(endpoints[e], CLUSTER_ORDER[group], Priorities(CLUSTER_ORDER[group])[attr]);
            var left := Ahead(keys, group, attr, endpoints[e..]);
            && Ahead(keys, group, attr, endpoints[e + 1..]) == left - {p}
            && (p in left <==> PathText(p) in keys)
            && (p in left ==> IsLeast(p, left, RankOf))
  {
    var p := Path(endpoints[e], CLUSTER_ORDER[group], Priorities(CLUSTER_ORDER[group])[attr]);
    RankAt(group, attr, endpoints[e]);
    RankIsInjective();
    var now, next := endpoints[e..], endpoints[e + 1..];
    assert now == [endpoints[e]] + next;
    forall r: Rank | IsAhead(r, group, attr, now) && r != RankOf(p)
      ensures r.third == 0 || r.group != group ==> Less(RankOf(p), r) && IsAhead(r, group, attr, next)
    {
    }
    forall q | q in Reported(keys)
      ensures IsAhead(RankOf(q), group, attr, next) <==> IsAhead(RankOf(q), group, attr, now) && q != p
      ensures IsAhead(RankOf(q), group, attr, now) && q != p ==> Less(RankOf(p), RankOf(q))
    {
      RankShape(q);
    }
  }

  lemma AtTheEdges(p: Path, group: nat)
    requires Eligible(p) && group < |CLUSTER_ORDER|
    ensures IsAhead(RankOf(p), 0, -1, [])
    ensures IsAhead(RankOf(p), group, |Priorities(CLUSTER_ORDER[group])| - 1, []) <==>
              IsAhead(RankOf(p), group + 1, -1, [])
    ensures IsAhead(RankOf(p), |CLUSTER_ORDER|, -1, []) <==> !Prioritised(p)
  {
    RankShape(p);
  }

  lemma Edges(keys: set<string>, group: nat)
    requires group < |CLUSTER_ORDER|
    ensures Ahead(keys, 0, -1, []) == Reported(keys)
    ensures Ahead(keys, group, |Priorities(CLUSTER_ORDER[group])| - 1, []) == Ahead(keys, group + 1, -1, [])
    ensures Ahead(keys, |CLUSTER_ORDER|, -1, []) == ExtraAhead(keys, [])
  {
    forall p | p in Reported(keys)
      ensures IsAhead(RankOf(p), 0, -1, [])
      ensures IsAhead(RankOf(p), group, |Priorities(CLUSTER_ORDER[group])| - 1, []) <==>
                IsAhead(RankOf(p), group + 1, -1, [])
      ensures IsAhead(RankOf(p), |CLUSTER_ORDER|, -1, []) <==> !Prioritised(p)
    {
      AtTheEdges(p, group);
    }
  }

  lemma VisitExtra(keys: set<string>, ordered: seq<Path>, k: nat)
    requires IsSorted(ordered) && k < |ordered|
    requires forall p :: p in Reported(keys) ==> p in ordered
    ensures var p, left := ordered[k], ExtraAhead(keys, ordered[..k]);
            && ExtraAhead(keys, ordered[..k + 1]) == left - {p}
            && (p in left ==> IsLeast(p, left, RankOf))
  {
    var p, left := ordered[k], ExtraAhead(keys, ordered[..k]);
    assert ordered[..k + 1] == ordered[..k] + [p];
    if p in left {
      forall j | 0 <= j < k ensures ordered[j] in ordered[..k] {
        assert ordered[..k][j] == ordered[j];
      }
      forall q | q in left && q != p ensures Less(RankOf(p), RankOf(q)) {
        var m :| 0 <= m < |ordered| && ordered[m] == q;
        assert PathLe(p, q);
        RankShape(p);
        RankShape(q);
      }
    }
  }

  /** The reported paths are those kept, in rank order, and those left. */
  ghost predicate Progress(paths: seq<string>, kept: seq<Path>, left: set<Path>, keys: set<string>) {
    paths == PathTexts(kept) && |kept| < MAX_DISCOVERED && Listing(kept, left, Reported(keys), RankOf)
  }

  lemma NothingToKeep(kept: seq<Path>, left: set<Path>, keys: set<string>, p: Path)
    requires Listing(kept, left, Reported(keys), RankOf)
    requires PathText(p) !in keys || p in kept
    ensures left - {p} == left
  {
    if p in kept {
      var i :| 0 <= i < |kept| && kept[i] == p;
      assert !Less(RankOf(kept[i]), RankOf(p));
    } else {
      assert p !in Reported(keys);
    }
  }

  lemma TextsGrow(ps: seq<Path>, p: Path)
    ensures PathTexts(ps + [p]) == PathTexts(ps) + [PathText(p)]
  {
  }

  lemma FullListing(kept: seq<Path>, left: set<Path>, keys: set<string>)
    requires Listing(kept, left, Reported(keys), RankOf)
    requires |kept| == MAX_DISCOVERED || (|kept| < MAX_DISCOVERED && left == {})
    ensures kept == FirstRanked(keys)
  {
    RankIsInjective();
    ListingIsPrefix(kept, left, Reported(keys), RankOf, MAX_DISCOVERED);
  }

  /** The inner `add_candidate`: keep a reported path not seen yet; true when the cap is reached. */
  method AddCandidate(keyOrder: seq<string>, paths: seq<string>, p: Path, ghost kept: seq<Path>, ghost left: set<Path>)
    returns (more: seq<string>, full: bool, ghost keptNow: seq<Path>)
    requires Progress(paths, kept, left, KeySet(keyOrder))
    requires PathText(p) in keyOrder ==> Eligible(p)
    requires p in left ==> IsLeast(p, left, RankOf)
    ensures full ==> more == PathTexts(FirstRanked(KeySet(keyOrder)))
    ensures !full ==> Progress(more, keptNow, left - {p}, KeySet(keyOrder))
  {
    ghost var keys := KeySet(keyOrder);
    TextsTell(kept, p);
    if PathText(p) !in keyOrder || PathText(p) in paths {
      NothingToKeep(kept, left, keys, p);
      return paths, false, kept;
    }
    assert p in left by { assert p in Reported(keys); }
    ListNext(kept, left, Reported(keys), RankOf, p);
    TextsGrow(kept, p);
    more, keptNow := paths + [PathText(p)], kept + [p];
    full := |more| >= MAX_DISCOVERED;
    if full {
      FullListing(keptNow, left - {p}, keys);
    }
  }

  /** One preferred attribute of one cluster at each of its endpoints. */
  method DiscoverAttribute(keyOrder: seq<string>, soFar: seq<string>, ghost keptSoFar: seq<Path>, c: nat, a: nat,
      endpoints: seq<int>)
    returns (paths: seq<string>, full: bool, ghost kept: seq<Path>)
    requires c < |CLUSTER_ORDER| && a < |Priorities(CLUSTER_ORDER[c])|
    requires endpoints == EndpointsWithCluster(KeySet(keyOrder), CLUSTER_ORDER[c])
    requires Progress(soFar, keptSoFar, Ahead(KeySet(keyOrder), c, a - 1, []), KeySet(keyOrder))
    ensures full ==> paths == PathTexts(FirstRanked(KeySet(keyOrder)))
    ensures !full ==> Progress(paths, kept, Ahead(KeySet(keyOrder), c, a, []), KeySet(keyOrder))
  {
    ghost var keys := KeySet(keyOrder);
    paths, kept, full := soFar, keptSoFar, false;
    StartAttribute(keys, c, a, endpoints);
    assert endpoints[0..] == endpoints;
    for e := 0 to |endpoints|
      invariant Progress(paths, kept, Ahead(keys, c, a, endpoints[e..]), keys)
    {
      var p := Path(endpoints[e], CLUSTER_ORDER[c], Priorities(CLUSTER_ORDER[c])[a]);
      VisitEndpoint(keys, c, a, endpoints, e);
      assert PathText(p) in keyOrder ==> Eligible(p) by { RankAt(c, a, endpoints[e]); }
      paths, full, kept := AddCandidate(keyOrder, paths, p, kept, Ahead(keys, c, a, endpoints[e..]));
      if full {
        return;
      }
    }
    assert endpoints[|endpoints|..] == [];
  }

  /** Prioritised clusters: for each cluster, each preferred attribute at each endpoint. */
  method DiscoverPrioritised(keyOrder: seq<string>) returns (paths: seq<string>, full: bool, ghost kept: seq<Path>)
    ensures full ==> paths == PathTexts(FirstRanked(KeySet(keyOrder)))
    ensures !full ==> Progress(paths, kept, ExtraAhead(KeySet(keyOrder), []), KeySet(keyOrder))
  {
    ghost var keys := KeySet(keyOrder);
    paths, kept, full := [], [], false;
    Edges(keys, 0);
    for c := 0 to |CLUSTER_ORDER|
      invariant Progress(paths, kept, Ahead(keys, c, -1, []), keys)
    {
      var endpoints := CollectEndpoints(keyOrder, CLUSTER_ORDER[c]);
      for a := 0 to |Priorities(CLUSTER_ORDER[c])|
        invariant Progress(paths, kept, Ahead(keys, c, a - 1, []), keys)
      {
        paths, full, kept := DiscoverAttribute(keyOrder, paths, kept, c, a, endpoints);
        if full {
          return;
        }
      }
      Edges(keys, c);
    }
  }

  /**
   `_discovered_candidates`, as paths: the prioritised clusters, then the extra clusters by path,
   leaving as soon as the cap is reached. `keyOrder` is any iteration order of the key set.
   */
  method DiscoverPaths(keyOrder: seq<string>) returns (paths: seq<string>)
    ensures paths == PathTexts(FirstRanked(KeySet(keyOrder)))
  {
    ghost var keys := KeySet(keyOrder);
    var parsed := ParseAll(keyOrder);
    ParsedCovers(keyOrder);
    if parsed == [] {
      assert Reported(keys) == {};
      return [];
    }
    var full: bool;
    ghost var kept: seq<Path>;
    paths, full, kept := DiscoverPrioritised(keyOrder);
    if full {
      return;
    }
    var ordered := SortPaths(parsed);
    for k := 0 to |ordered|
      invariant Progress(paths, kept, ExtraAhead(keys, ordered[..k]), keys)
    {
      var p := ordered[k];
      VisitExtra(keys, ordered, k);
      if p.cluster in CLUSTER_ORDER || p.cluster !in EXTRA_CLUSTERS {
        assert p !in ExtraAhead(keys, ordered[..k]);
        continue;
      }
      paths, full, kept := AddCandidate(keyOrder, paths, p, kept, ExtraAhead(keys, ordered[..k]));
      if full {
        return;
      }
    }
    assert ordered[..|ordered|] == ordered;
    assert ExtraAhead(keys, ordered) == {};
    FullListing(kept, {}, keys);
  }

  lemma TextsAreDistinct(ps: seq<Path>)
    requires Ascending(ps, RankOf)
    ensures forall i, j :: 0 <= i < j < |ps| ==> PathText(ps[i]) != PathText(ps[j])
  {
    forall i, j | 0 <= i < j < |ps| ensures PathText(ps[i]) != PathText(ps[j]) {
      assert Less(RankOf(ps[i]), RankOf(ps[j]));
      ParsePathText(ps[i]);
      ParsePathText(ps[j]);
    }
  }

  /**
   What the cut listing guarantees: reported keys only, each text once, at most twelve, strictly
   by priority; and whatever is left out ranks after everything kept, with the cap reached.
   */
  lemma {:induction false} DiscoveredAreTheBest(keys: set<string>)
    ensures var best, all := FirstRanked(keys), Reported(keys);
            && Ascending(best, RankOf)
            && |best| == (if |all| <= MAX_DISCOVERED then |all| else MAX_DISCOVERED)
            && (forall p :: p in best ==> PathText(p) in keys && Eligible(p))
            && (forall i, j :: 0 <= i < j < |best| ==> PathText(best[i]) != PathText(best[j]))
            && (forall p, q :: p in best && q in all && q !in best ==>
                  |best| == MAX_DISCOVERED && Less(RankOf(p), RankOf(q)))
  {
    RankIsInjective();
    TakeIsBest(Reported(keys), RankOf, MAX_DISCOVERED);
    TextsAreDistinct(FirstRanked(keys));
  }
}
