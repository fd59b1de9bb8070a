/**
 The health engine: threshold rules for every component, the environment roll-up of all of them,
 and the extra "insufficient data" merge. Times are seconds.
 */
module HealthEngine {
  import opened Containers
  import opened HealthRollup
  import Collector = OtbrCollector

  datatype Thresholds = Thresholds(
    availabilityWarning: nat, availabilityDegraded: nat, unavailableCriticalMinutes: nat,
    probeWarning: nat, probeDegraded: nat, roleWarning: nat, roleDegraded: nat,
    flapWarning: nat, flapDegraded: nat)

  datatype Config = Config(otbrs: seq<string>, servers: seq<string>, mdnsEnabled: bool, limits: Thresholds)

  /** `roleEvents` is the number of role-changed events of the last hour in the event log. */
  datatype Otbr = Otbr(
    id: string, reachable: bool, threadState: Option<string>, endpointMismatch: bool, extPanId: Option<string>,
    datasetAvailable: bool, roleChanges: Option<int>, roleEvents: nat)

  datatype Server = Server(
    id: string, connected: bool, inventoryAvailable: bool, availabilityAvailable: bool, unavailableNodes: int)

  datatype Node = Node(
    serverId: string, nodeId: int, available: bool, lastUnavailable: Option<real>, flaps: Option<int>,
    probeDiagnostics: bool, probeLimited: bool, probeOk: Option<bool>, probeFailures: Option<int>,
    pingDiagnostics: bool, pingOk: Option<bool>)

  datatype Network = Network(
    extPanId: string, visible: bool, classification: Collector.Classification, sources: set<string>)

  datatype TrelService = TrelService(foreign: bool, visible: bool)

  datatype Observer = Observer(running: bool, degraded: Option<bool>)

  datatype LogEvent = LogEvent(kind: string, at: real, initial: bool)

  /** What is stored when the report is built. */
  datatype Stored = Stored(
    otbrs: seq<Otbr>, servers: seq<Server>, nodes: seq<Node>, networks: seq<Network>, trel: seq<TrelService>,
    observer: Option<Observer>, log: seq<LogEvent>)

  type Candidate = (State, seq<string>)

  const MDNS_FLAP_EVENTS := ["mdns.service_added", "mdns.service_removed"]
  const TREL_FLAP_EVENTS := ["trel.service_added", "trel.service_removed"]

  // ----- rules -----

  /** A count against its two limits, the degraded one first. */
  function Graded(count: int, warning: nat, degraded: nat, warningReason: string,
      degradedReason: string): seq<Candidate> {
    if count >= degraded then [(Degraded, [degradedReason])]
    else if count >= warning then [(Warning, [warningReason])]
    else []
  }

  function When(holds: bool, state: State, reason: string): seq<Candidate> {
    if holds then [(state, [reason])] else []
  }

  function OrHealthy(candidates: seq<Candidate>): (r: seq<Candidate>)
    ensures r != []
  {
    if candidates == [] then [(Healthy, [])] else candidates
  }

  function RoleChanges(o: Otbr): int {
    o.roleChanges.GetOr(o.roleEvents)
  }

  function OtbrCandidates(o: Otbr, limits: Thresholds): (r: seq<Candidate>)
    ensures r != []
  {
    if !o.reachable then [(Critical, ["otbr_unreachable"])]
    else if o.threadState == Some("disabled") then [(Degraded, ["otbr_thread_stack_disabled"])]
    else OrHealthy(SetupRules(o) + RoleRule(o, limits))
  }

  function SetupRules(o: Otbr): seq<Candidate> {
    When(o.endpointMismatch, Warning, "otbr_rest_endpoint_mismatch")
    + When(o.extPanId == None && !o.datasetAvailable, Warning, "otbr_dataset_unknown")
  }

  function RoleRule(o: Otbr, limits: Thresholds): seq<Candidate> {
    Graded(RoleChanges(o), limits.roleWarning, limits.roleDegraded,
      "otbr_role_flapping_warning", "otbr_role_flapping_degraded")
  }

  function OtbrHealth(o: Otbr, limits: Thresholds): Status {
    Merge(AsStatuses(OtbrCandidates(o, limits)))
  }

  /** `_calculate_otbr_health`. */
  method CalculateOtbrHealth(o: Otbr, limits: Thresholds) returns (r: Status)
    ensures r == OtbrHealth(o, limits)
  {
    var roleChanges := if o.roleChanges == None then o.roleEvents else o.roleChanges.value;
    var candidates: seq<Candidate> := [];
    if !o.reachable {
      candidates := candidates + [(Critical, ["otbr_unreachable"])];
    } else if o.threadState == Some("disabled") {
      candidates := candidates + [(Degraded, ["otbr_thread_stack_disabled"])];
    } else {
      if o.endpointMismatch {
        candidates := candidates + [(Warning, ["otbr_rest_endpoint_mismatch"])];
      }
      var datasetKnown := o.extPanId != None || o.datasetAvailable;
      if !datasetKnown {
        candidates := candidates + [(Warning, ["otbr_dataset_unknown"])];
      }
      if roleChanges >= limits.roleDegraded {
        candidates := candidates + [(Degraded, ["otbr_role_flapping_degraded"])];
      } else if roleChanges >= limits.roleWarning {
        candidates := candidates + [(Warning, ["otbr_role_flapping_warning"])];
      }
      if candidates == [] {
        candidates := candidates + [(Healthy, [])];
      }
    }
    assert candidates == OtbrCandidates(o, limits);
    r := HealthFromCandidates(candidates);
  }

  function ServerCandidates(s: Server): (r: seq<Candidate>)
    ensures r != []
  {
    if !s.connected then [(Critical, ["matter_server_disconnected"])]
    else OrHealthy(
      When(!s.inventoryAvailable, Warning, "matter_node_inventory_unavailable")
      + When(s.unavailableNodes > 0, Warning, "matter_nodes_unavailable"))
  }

  function ServerHealth(s: Server): Status {
    Merge(AsStatuses(ServerCandidates(s)))
  }

  /** `_calculate_matter_server_health`. */
  method CalculateServerHealth(s: Server) returns (r: Status)
    ensures r == ServerHealth(s)
  {
    var candidates: seq<Candidate> := [];
    if !s.connected {
      candidates := candidates + [(Critical, ["matter_server_disconnected"])];
    } else if !s.inventoryAvailable {
      candidates := candidates + [(Warning, ["matter_node_inventory_unavailable"])];
      if s.unavailableNodes > 0 {
        candidates := candidates + [(Warning, ["matter_nodes_unavailable"])];
      }
    } else if s.unavailableNodes > 0 {
      candidates := candidates + [(Warning, ["matter_nodes_unavailable"])];
    } else {
      candidates := candidates + [(Healthy, [])];
    }
    assert candidates == ServerCandidates(s);
    r := HealthFromCandidates(candidates);
  }

  function MinutesDown(n: Node, now: real): real {
    if n.lastUnavailable.Some? then (now - n.lastUnavailable.value) / 60.0 else 0.0
  }

  function NodeCandidates(n: Node, server: Option<Server>, limits: Thresholds, now: real): (r: seq<Candidate>)
    ensures r != []
  {
    if server.None? || !server.value.availabilityAvailable then [(Unknown, ["matter_node_availability_unknown"])]
    else if !n.available then
      if MinutesDown(n, now) >= limits.unavailableCriticalMinutes as real
      then [(Critical, ["matter_node_unavailable_critical"])]
      else [(Degraded, ["matter_node_unavailable"])]
    else OrHealthy(AnsweringRules(n, limits))
  }

  /** The rules for a node that is available. */
  function AnsweringRules(n: Node, limits: Thresholds): seq<Candidate> {
    FlapRule(n, limits) + ProbeRules(n, limits) + PingRule(n)
  }

  function PingRule(n: Node): seq<Candidate> {
    When(n.pingDiagnostics && n.pingOk == Some(false), Warning, "matter_node_ping_probe_failed")
  }

  function FlapRule(n: Node, limits: Thresholds): seq<Candidate> {
    if n.flaps.None? then [] else
    Graded(n.flaps.value, limits.availabilityWarning, limits.availabilityDegraded,
      "matter_node_availability_flapping_warning", "matter_node_availability_flapping_degraded")
  }

  function ProbeRules(n: Node, limits: Thresholds): seq<Candidate> {
    if !n.probeDiagnostics || n.probeLimited then [] else
    When(n.probeOk == Some(false), Warning, "matter_node_read_probe_failed")
    + if n.probeFailures.None? then [] else
      Graded(n.probeFailures.value, limits.probeWarning, limits.probeDegraded,
        "matter_node_read_probe_failures_24h", "matter_node_read_probe_failures_24h")
  }

  function NodeHealth(n: Node, server: Option<Server>, limits: Thresholds, now: real): Status {
    Merge(AsStatuses(NodeCandidates(n, server, limits, now)))
  }

  /** `_calculate_matter_node_health`. */
  method CalculateNodeHealth(n: Node, server: Option<Server>, limits: Thresholds, now: real) returns (r: Status)
    ensures r == NodeHealth(n, server, limits, now)
  {
    var candidates: seq<Candidate> := [];
    if server == None || !server.value.availabilityAvailable {
      candidates := candidates + [(Unknown, ["matter_node_availability_unknown"])];
    } else if !n.available {
      var unavailableMinutes := 0.0;
      if n.lastUnavailable != None {
        unavailableMinutes := (now - n.lastUnavailable.value) / 60.0;
      }
      if unavailableMinutes >= limits.unavailableCriticalMinutes as real {
        candidates := candidates + [(Critical, ["matter_node_unavailable_critical"])];
      } else {
        candidates := candidates + [(Degraded, ["matter_node_unavailable"])];
      }
    } else {
      candidates := AvailableNodeCandidates(n, limits);
    }
    assert candidates == NodeCandidates(n, server, limits, now);
    r := HealthFromCandidates(candidates);
  }

  method AvailableNodeCandidates(n: Node, limits: Thresholds) returns (candidates: seq<Candidate>)
    ensures candidates == OrHealthy(AnsweringRules(n, limits))
  {
    candidates := [];
    if n.flaps != None {
      if n.flaps.value >= limits.availabilityDegraded {
        candidates := candidates + [(Degraded, ["matter_node_availability_flapping_degraded"])];
      } else if n.flaps.value >= limits.availabilityWarning {
        candidates := candidates + [(Warning, ["matter_node_availability_flapping_warning"])];
      }
    }
    assert candidates == FlapRule(n, limits);
    if n.probeDiagnostics && !n.probeLimited {
      if n.probeOk == Some(false) {
        candidates := candidates + [(Warning, ["matter_node_read_probe_failed"])];
      }
      if n.probeFailures != None {
        if n.probeFailures.value >= limits.probeDegraded {
          candidates := candidates + [(Degraded, ["matter_node_read_probe_failures_24h"])];
        } else if n.probeFailures.value >= limits.probeWarning {
          candidates := candidates + [(Warning, ["matter_node_read_probe_failures_24h"])];
        }
      }
    }
    assert candidates == FlapRule(n, limits) + ProbeRules(n, limits);
    if n.pingDiagnostics && n.pingOk == Some(false) {
      candidates := candidates + [(Warning, ["matter_node_ping_probe_failed"])];
    }
    if candidates == [] {
      candidates := candidates + [(Healthy, [])];
    }
  }

  /** `_calculate_thread_network_health`. */
  function NetworkHealth(n: Network, otbrs: seq<Otbr>): Status {
    Merge(AsStatuses([
      if !n.visible then (Unknown, ["thread_network_not_visible"])
      else if n.classification == Collector.Primary && (exists o :: o in otbrs && o.reachable && o.id in n.sources)
      then (Healthy, [])
      else if n.classification == Collector.ObservedOther then (Warning, ["observed_other_thread_network_visible"])
      else if n.classification == Collector.Unknown then (Warning, ["primary_thread_network_unknown"])
      else (Warning, ["thread_network_source_otbrs_unreachable"])]))
  }

  // ----- service flaps -----

  predicate IsFlap(e: LogEvent, kinds: seq<string>, since: real) {
    e.kind in kinds && e.at >= since && !e.initial
  }

  /** Events of the given kinds since `since`, initial observations left out. */
  function Flaps(log: seq<LogEvent>, kinds: seq<string>, since: real): nat {
    if log == [] then 0 else
    Flaps(log[..|log| - 1], kinds, since) + if IsFlap(log[|log| - 1], kinds, since) then 1 else 0
  }

  lemma {:induction false} FlapsByKind(log: seq<LogEvent>, kinds: seq<string>, kind: string, since: real)
    requires kind !in kinds
    ensures Flaps(log, kinds + [kind], since) == Flaps(log, kinds, since) + Flaps(log, [kind], since)
  {
    if log != [] {
      FlapsByKind(log[..|log| - 1], kinds, kind, since);
    }
  }

  lemma {:induction false} NoKindsNoFlaps(log: seq<LogEvent>, since: real)
    ensures Flaps(log, [], since) == 0
  {
    if log != [] {
      NoKindsNoFlaps(log[..|log| - 1], since);
    }
  }

  /** `_count_service_flaps`: one pass over the log for each kind. */
  method CountServiceFlaps(log: seq<LogEvent>, kinds: seq<string>, since: real) returns (total: nat)
    requires forall i, j :: 0 <= i < j < |kinds| ==> kinds[i] != kinds[j]
    ensures total == Flaps(log, kinds, since)
  {
    total := 0;
    NoKindsNoFlaps(log, since);
    for i := 0 to |kinds|
      invariant total == Flaps(log, kinds[..i], since)
    {
      var ofKind := CountOneKind(log, kinds[i], since);
      FlapsByKind(log, kinds[..i], kinds[i], since);
      assert kinds[..i + 1] == kinds[..i] + [kinds[i]];
      total := total + ofKind;
    }
    assert kinds[..|kinds|] == kinds;
  }

  method CountOneKind(log: seq<LogEvent>, kind: string, since: real) returns (total: nat)
    ensures total == Flaps(log, [kind], since)
  {
    total := 0;
    for i := 0 to |log|
      invariant total == Flaps(log[..i], [kind], since)
    {
      assert log[..i + 1][..i] == log[..i];
      if log[i].kind == kind && log[i].at >= since && !log[i].initial {
        total := total + 1;
      }
    }
    assert log[..|log|] == log;
  }

  function FlapCandidates(flaps: nat, limits: Thresholds): seq<Candidate> {
    Graded(flaps, limits.flapWarning, limits.flapDegraded,
      "mdns_service_flapping_warning", "mdns_service_flapping_degraded")
  }

  function MdnsCandidates(observer: Option<Observer>, flaps: nat, limits: Thresholds): (r: seq<Candidate>)
    ensures r != []
  {
    if observer.None? || !observer.value.running then [(Warning, ["mdns_observer_not_running"])]
    else if observer.value.degraded == Some(true) then [(Warning, ["mdns_observation_degraded"])]
    else if observer.value.degraded == None then [(Unknown, ["mdns_observation_capability_unknown"])]
    else OrHealthy(FlapCandidates(flaps, limits))
  }

  /** `_calculate_mdns_health`. */
  function MdnsHealth(config: Config, observer: Option<Observer>, flaps: nat): Status {
    if !config.mdnsEnabled then Status(Unknown, ["mdns_observation_disabled"])
    else Merge(AsStatuses(MdnsCandidates(observer, flaps, config.limits)))
  }

  predicate Trusted(observer: Option<Observer>) {
    observer.Some? && observer.value.running && observer.value.degraded == Some(false)
  }

  function TrelCandidates(config: Config, trel: seq<TrelService>, flaps: nat): seq<Candidate> {
    ForeignRule(trel) + FlapCandidates(flaps, config.limits)
  }

  function ForeignRule(trel: seq<TrelService>): seq<Candidate> {
    When(exists s :: s in trel && s.foreign && s.visible, Warning, "foreign_trel_services_observed")
  }

  /** `_calculate_trel_health`. */
  function TrelHealth(config: Config, observer: Option<Observer>, trel: seq<TrelService>, flaps: nat): Status {
    var candidates := TrelCandidates(config, trel, flaps);
    if candidates == [] && !config.mdnsEnabled then Status(Unknown, ["mdns_observation_disabled"])
    else Merge(AsStatuses(
      if candidates != [] then candidates
      else if Trusted(observer) then [(Healthy, [])]
      else [(Unknown, ["mdns_observation_capability_unknown"])]))
  }

  // ----- agreement between border routers -----

  /** `{state.id: state for state in states}`: the last state with each id. */
  function ById(otbrs: seq<Otbr>): (m: map<string, Otbr>)
    ensures forall id :: id in m ==> m[id] in otbrs && m[id].id == id
  {
    if otbrs == [] then map[] else
    var n := |otbrs| - 1;
    ById(otbrs[..n])[otbrs[n].id := otbrs[n]]
  }

  /** Ids that are configured and stored. */
  function ConfiguredIds(config: Config, otbrs: seq<Otbr>): set<string> {
    set id | id in config.otbrs && id in ById(otbrs)
  }

  function ReachableIds(config: Config, otbrs: seq<Otbr>): set<string> {
    set id | id in ConfiguredIds(config, otbrs) && ById(otbrs)[id].reachable
  }

  predicate OnNetwork(o: Otbr) {
    o.reachable && o.extPanId.GetOr("") != ""
  }

  /** The distinct extended PAN ids of reachable configured border routers. */
  function ExtPanIds(config: Config, otbrs: seq<Otbr>): set<string> {
    set id | id in ConfiguredIds(config, otbrs) && OnNetwork(ById(otbrs)[id]) :: ById(otbrs)[id].extPanId.value
  }

  function PrimaryClass(ids: set<string>): Collector.Classification {
    Collector.ClassifyPrimary(ids).1
  }

  /** `_configured_otbr_disagreement_health`. */
  function DisagreementHealth(config: Config, otbrs: seq<Otbr>): Status {
    if |ConfiguredIds(config, otbrs)| < 2 then Status(Healthy, [])
    else
      var ids := ExtPanIds(config, otbrs);
      if |ids| <= 1 then Status(Healthy, [])
      else if PrimaryClass(ids) == Collector.Unknown then
        if |ReachableIds(config, otbrs)| >= 2
        then Status(Degraded, ["configured_otbrs_disagree_on_ext_pan_id"])
        else Status(Warning, ["configured_otbrs_disagree_on_ext_pan_id"])
      else Status(Healthy, [])
  }

  /** `_primary_network_unknown_health`. */
  function PrimaryUnknownHealth(config: Config, otbrs: seq<Otbr>, networks: seq<Network>): Status {
    if config.otbrs == [] then Status(Healthy, [])
    else
      var ids := ExtPanIds(config, otbrs);
      if PrimaryClass(ids) == Collector.Unknown && |ids| > 1 then Status(Warning, ["primary_thread_network_unknown"])
      else if (exists n :: n in networks && n.classification == Collector.Unknown && n.visible) && ids == {}
      then Status(Warning, ["primary_thread_network_unknown"])
      else Status(Healthy, [])
  }

  ghost predicate AllNamed(ids: set<string>, byId: map<string, Otbr>) {
    forall id :: id in ids ==> id in byId && byId[id].extPanId.Some?
  }

  function NamesOf(ids: set<string>, byId: map<string, Otbr>): set<string>
    requires AllNamed(ids, byId)
  {
    set id | id in ids :: byId[id].extPanId.value
  }

  lemma {:induction false} ImageIsNoLarger(ids: set<string>, byId: map<string, Otbr>)
    requires AllNamed(ids, byId)
    ensures |NamesOf(ids, byId)| <= |ids|
    decreases |ids|
  {
    if ids == {} {
      assert NamesOf(ids, byId) == {};
    } else {
      var id :| id in ids;
      ImageIsNoLarger(ids - {id}, byId);
      assert NamesOf(ids, byId) == NamesOf(ids - {id}, byId) + {byId[id].extPanId.value};
    }
  }

  lemma IdsComeFromReachable(config: Config, otbrs: seq<Otbr>)
    ensures |ExtPanIds(config, otbrs)| <= |ReachableIds(config, otbrs)| <= |ConfiguredIds(config, otbrs)|
  {
    var byId, configured := ById(otbrs), ConfiguredIds(config, otbrs);
    var joined := set id | id in configured && OnNetwork(byId[id]);
    ImageIsNoLarger(joined, byId);
    assert ExtPanIds(config, otbrs) == NamesOf(joined, byId);
    SubsetIsNoLarger(joined, ReachableIds(config, otbrs));
    SubsetIsNoLarger(ReachableIds(config, otbrs), configured);
  }

  lemma {:induction false} SubsetIsNoLarger(a: set<string>, b: set<string>)
    requires a <= b
    ensures |a| <= |b|
    decreases |a|
  {
    if a != {} {
      var x :| x in a;
      SubsetIsNoLarger(a - {x}, b - {x});
    }
  }

  /**
   Disagreement is reported exactly when two extended PAN ids are seen on reachable configured
   border routers, and then always as "degraded": the "warning" branch cannot be taken.
   */
  lemma {:induction false} DisagreementIsDegraded(config: Config, otbrs: seq<Otbr>)
    ensures DisagreementHealth(config, otbrs).state ==
              if |ExtPanIds(config, otbrs)| >= 2 then Degraded else Healthy
  {
    IdsComeFromReachable(config, otbrs);
  }

  predicate UnknownVisible(networks: seq<Network>) {
    exists i :: 0 <= i < |networks| && networks[i].visible && networks[i].classification == Collector.Unknown
  }

  /** What makes the unknown-primary rule warn. */
  predicate PrimaryUnknown(config: Config, otbrs: seq<Otbr>, networks: seq<Network>) {
    config.otbrs != [] && (|ExtPanIds(config, otbrs)| >= 2 ||
        (ExtPanIds(config, otbrs) == {} && UnknownVisible(networks)))
  }

  lemma PrimaryUnknownWarns(config: Config, otbrs: seq<Otbr>, networks: seq<Network>)
    ensures PrimaryUnknownHealth(config, otbrs, networks).state ==
              if PrimaryUnknown(config, otbrs, networks) then Warning else Healthy
  {
    if UnknownVisible(networks) {
      var i :| 0 <= i < |networks| && networks[i].visible && networks[i].classification == Collector.Unknown;
      assert networks[i] in networks;
    }
  }

  // ----- the report -----

  datatype Report = Report(
    environment: Status, overall: Status, otbrs: seq<Status>, servers: seq<Status>, nodes: seq<Status>,
    networks: seq<Status>, mdns: Status, trel: Status)

  function FindOtbr(otbrs: seq<Otbr>, id: string): Option<Otbr> {
    if otbrs == [] then None
    else if otbrs[0].id == id then Some(otbrs[0])
    else FindOtbr(otbrs[1..], id)
  }

  function FindServer(servers: seq<Server>, id: string): Option<Server> {
    if servers == [] then None
    else if servers[0].id == id then Some(servers[0])
    else FindServer(servers[1..], id)
  }

  /** `server_by_id.get`: the last server with this id. */
  function LastServer(servers: seq<Server>, id: string): Option<Server> {
    if servers == [] then None
    else if servers[|servers| - 1].id == id then Some(servers[|servers| - 1])
    else LastServer(servers[..|servers| - 1], id)
  }

  function ConfiguredOtbr(otbrs: seq<Otbr>, limits: Thresholds, id: string): Status {
    match FindOtbr(otbrs, id)
    case None => Status(Unknown, ["otbr_not_observed"])
    case Some(o) => OtbrHealth(o, limits)
  }

  function ConfiguredServer(servers: seq<Server>, id: string): Status {
    match FindServer(servers, id)
    case None => Status(Unknown, ["matter_server_not_observed"])
    case Some(s) => ServerHealth(s)
  }

  function OtbrList(ids: seq<string>, otbrs: seq<Otbr>, limits: Thresholds): seq<Status> {
    seq(|ids|, i requires 0 <= i < |ids| => ConfiguredOtbr(otbrs, limits, ids[i]))
  }

  function ServerList(ids: seq<string>, servers: seq<Server>): seq<Status> {
    seq(|ids|, i requires 0 <= i < |ids| => ConfiguredServer(servers, ids[i]))
  }

  /** A stored node against the server it belongs to. */
  function StoredNode(n: Node, servers: seq<Server>, limits: Thresholds, now: real): Status {
    NodeHealth(n, LastServer(servers, n.serverId), limits, now)
  }

  function NodeList(nodes: seq<Node>, servers: seq<Server>, limits: Thresholds, now: real): seq<Status> {
    seq(|nodes|, i requires 0 <= i < |nodes| => StoredNode(nodes[i], servers, limits, now))
  }

  function NetworkList(networks: seq<Network>, otbrs: seq<Otbr>): seq<Status> {
    seq(|networks|, i requires 0 <= i < |networks| => NetworkHealth(networks[i], otbrs))
  }

  const OTHER_NETWORK := Status(Warning, ["observed_other_thread_network_visible"])

  /** One warning for every network classified "observed other", visible or not. */
  function OtherNetworks(networks: seq<Network>): (r: seq<Status>)
    ensures forall s :: s in r ==> s == OTHER_NETWORK
    ensures r != [] <==> exists n :: n in networks && n.classification == Collector.ObservedOther
  {
    if networks == [] then [] else
    var before, n := networks[..|networks| - 1], networks[|networks| - 1];
    assert networks == before + [n];
    OtherNetworks(before) + if n.classification == Collector.ObservedOther then [OTHER_NETWORK] else []
  }

  predicate InsufficientData(config: Config, stored: Stored, now: real) {
    && config.otbrs == [] && config.servers == [] && !config.mdnsEnabled
    && (forall o :: o in stored.otbrs ==> !o.reachable)
    && (forall s :: s in stored.servers ==> !s.connected)
    && stored.nodes == []
    && (forall n :: n in stored.networks ==> !n.visible)
    && (forall t :: t in stored.trel ==> !(t.foreign && t.visible))
    && (forall e :: e in stored.log ==> e.at < now - 86400.0)
  }

  /** The component healths; environment and overall still to be filled in. */
  function Components(config: Config, stored: Stored, now: real): Report {
    Report(INSUFFICIENT, INSUFFICIENT,
      OtbrList(config.otbrs, stored.otbrs, config.limits),
      ServerList(config.servers, stored.servers),
      NodeList(stored.nodes, stored.servers, config.limits, now),
      NetworkList(stored.networks, stored.otbrs),
      MdnsHealth(config, stored.observer, Flaps(stored.log, MDNS_FLAP_EVENTS, now - 3600.0)),
      TrelHealth(config, stored.observer, stored.trel, Flaps(stored.log, TREL_FLAP_EVENTS, now - 3600.0)))
  }

  function EnvironmentStatuses(config: Config, stored: Stored, parts: Report): (r: seq<Status>)
    ensures r != []
  {
    parts.otbrs + parts.servers + parts.nodes + OtherNetworks(stored.networks)
    + [parts.mdns, parts.trel, DisagreementHealth(config, stored.otbrs),
       PrimaryUnknownHealth(config, stored.otbrs, stored.networks)]
  }

  function Environment(config: Config, stored: Stored, parts: Report, now: real): Status {
    var merged := Merge(EnvironmentStatuses(config, stored, parts));
    if InsufficientData(config, stored, now) then Merge([merged, INSUFFICIENT]) else merged
  }

  function ReportOf(config: Config, stored: Stored, now: real): Report {
    var parts := Components(config, stored, now);
    var environment := Environment(config, stored, parts, now);
    parts.(environment := environment, overall := Merge([environment]))
  }

  /** `build_report`. */
  method BuildReport(config: Config, stored: Stored, now: real) returns (report: Report)
    ensures report == ReportOf(config, stored, now)
  {
    var otbrHealth := OtbrsHealth(config.otbrs, stored.otbrs, config.limits);
    var serverHealth := ServersHealth(config.servers, stored.servers);
    var nodeHealth := NodesHealth(stored.nodes, stored.servers, config.limits, now);
    var networkHealth := NetworkList(stored.networks, stored.otbrs);
    var mdnsFlaps := CountServiceFlaps(stored.log, MDNS_FLAP_EVENTS, now - 3600.0);
    var trelFlaps := CountServiceFlaps(stored.log, TREL_FLAP_EVENTS, now - 3600.0);
    var mdns := MdnsHealth(config, stored.observer, mdnsFlaps);
    var trel := TrelHealth(config, stored.observer, stored.trel, trelFlaps);
    report := Report(INSUFFICIENT, INSUFFICIENT, otbrHealth, serverHealth, nodeHealth, networkHealth, mdns, trel);
    var statuses := otbrHealth + serverHealth + nodeHealth;
    statuses := AddOtherNetworks(statuses, stored.networks);
    statuses := statuses + [mdns, trel, DisagreementHealth(config, stored.otbrs),
                            PrimaryUnknownHealth(config, stored.otbrs, stored.networks)];
    assert statuses == EnvironmentStatuses(config, stored, report);
    var environment := MergeHealth(statuses);
    if InsufficientData(config, stored, now) {
      environment := MergeHealth([environment, INSUFFICIENT]);
    }
    var overall := MergeHealth([environment]);
    report := report.(environment := environment, overall := overall);
  }

  /** The loop over the configured border routers. */
  method OtbrsHealth(ids: seq<string>, otbrs: seq<Otbr>, limits: Thresholds) returns (r: seq<Status>)
    ensures r == OtbrList(ids, otbrs, limits)
  {
    ghost var all := OtbrList(ids, otbrs, limits);
    r := [];
    for i := 0 to |ids|
      invariant r == all[..i]
    {
      PrefixGrows(all, i);
      var health := ConfiguredOtbrHealth(ids[i], otbrs, limits);
      r := r + [health];
    }
  }

  method ConfiguredOtbrHealth(id: string, otbrs: seq<Otbr>, limits: Thresholds) returns (r: Status)
    ensures r == ConfiguredOtbr(otbrs, limits, id)
  {
    var state := FindOtbr(otbrs, id);
    if state == None {
      r := Status(Unknown, ["otbr_not_observed"]);
    } else {
      r := CalculateOtbrHealth(state.value, limits);
    }
  }

  /** The loop over the configured Matter servers. */
  method ServersHealth(ids: seq<string>, servers: seq<Server>) returns (r: seq<Status>)
    ensures r == ServerList(ids, servers)
  {
    ghost var all := ServerList(ids, servers);
    r := [];
    for i := 0 to |ids|
      invariant r == all[..i]
    {
      PrefixGrows(all, i);
      var health := ConfiguredServerHealth(ids[i], servers);
      r := r + [health];
    }
  }

  method ConfiguredServerHealth(id: string, servers: seq<Server>) returns (r: Status)
    ensures r == ConfiguredServer(servers, id)
  {
    var state := FindServer(servers, id);
    if state == None {
      r := Status(Unknown, ["matter_server_not_observed"]);
    } else {
      r := CalculateServerHealth(state.value);
    }
  }

  /** The loop over the stored nodes. */
  method NodesHealth(nodes: seq<Node>, servers: seq<Server>, limits: Thresholds, now: real) returns (r: seq<Status>)
    ensures r == NodeList(nodes, servers, limits, now)
  {
    ghost var all := NodeList(nodes, servers, limits, now);
    r := [];
    for i := 0 to |nodes|
      invariant r == all[..i]
    {
      PrefixGrows(all, i);
      var health := OneNodeHealth(nodes[i], servers, limits, now);
      r := r + [health];
    }
  }

  method OneNodeHealth(node: Node, servers: seq<Server>, limits: Thresholds, now: real) returns (r: Status)
    ensures r == StoredNode(node, servers, limits, now)
  {
    r := CalculateNodeHealth(node, LastServer(servers, node.serverId), limits, now);
  }

  method AddOtherNetworks(statuses: seq<Status>, networks: seq<Network>) returns (r: seq<Status>)
    ensures r == statuses + OtherNetworks(networks)
  {
    r := statuses;
    for i := 0 to |networks|
      invariant r == statuses + OtherNetworks(networks[..i])
    {
      assert networks[..i + 1][..i] == networks[..i];
      if networks[i].classification == Collector.ObservedOther {
        r := r + [OTHER_NETWORK];
      }
    }
    assert networks[..|networks|] == networks;
  }

  // ----- what the environment guarantees -----

  lemma MergeState(statuses: seq<Status>)
    requires statuses != []
    ensures forall s :: s in statuses ==> AtLeastAsBad(Merge(statuses).state, s.state)
    ensures exists s :: s in statuses && s.state == Merge(statuses).state
  {
    var states := States(statuses);
    WorstIsWorst(states);
    forall s | s in statuses ensures AtLeastAsBad(Merge(statuses).state, s.state) {
      var i :| 0 <= i < |statuses| && statuses[i] == s;
      assert states[i] in states;
    }
    var k :| 0 <= k < |states| && states[k] == PickWorst(states);
    assert statuses[k] in statuses;
  }

  /**
   The extra merge never changes the environment's state: it is applied only when mDNS is
   disabled, and then the environment is already no better than "unknown".
   */
  lemma {:induction false} InsufficientKeepsTheState(config: Config, stored: Stored, now: real)
    ensures var parts := Components(config, stored, now);
            ReportOf(config, stored, now).environment.state == Merge(EnvironmentStatuses(config, stored, parts)).state
  {
    var parts := Components(config, stored, now);
    var statuses := EnvironmentStatuses(config, stored, parts);
    if InsufficientData(config, stored, now) {
      MergeState(statuses);
      assert parts.mdns in statuses && parts.mdns.state == Unknown;
      MergeTwo(Merge(statuses), INSUFFICIENT);
    }
  }

  lemma MergeTwo(a: Status, b: Status)
    ensures Merge([a, b]).state == Worse(a.state, b.state)
  {
    assert States([a, b]) == [a.state] + [b.state];
    WorstOfConcat([a.state], [b.state]);
  }

  /** No component that the environment is made from is worse than `state`. */
  predicate CoversComponents(state: State, parts: Report) {
    && (forall s :: s in parts.otbrs + parts.servers + parts.nodes ==> AtLeastAsBad(state, s.state))
    && AtLeastAsBad(state, parts.mdns.state) && AtLeastAsBad(state, parts.trel.state)
  }

  lemma StatusesCoverComponents(config: Config, stored: Stored, parts: Report, state: State)
    requires forall s :: s in EnvironmentStatuses(config, stored, parts) ==> AtLeastAsBad(state, s.state)
    ensures CoversComponents(state, parts)
  {
    var statuses := EnvironmentStatuses(config, stored, parts);
    assert parts.mdns in statuses && parts.trel in statuses;
    assert forall s :: s in parts.otbrs + parts.servers + parts.nodes ==> s in statuses;
  }

  /**
   The environment is never better than any border router, Matter server, Matter node, mDNS or TREL
   component; and it is no worse than its worst input.
   */
  lemma {:induction false} EnvironmentIsTheWorst(config: Config, stored: Stored, now: real)
    ensures CoversComponents(ReportOf(config, stored, now).environment.state, ReportOf(config, stored, now))
    ensures exists t :: t in EnvironmentStatuses(config, stored, Components(config, stored, now))
                        && t.state == ReportOf(config, stored, now).environment.state
  {
    var parts := Components(config, stored, now);
    InsufficientKeepsTheState(config, stored, now);
    MergeState(EnvironmentStatuses(config, stored, parts));
    StatusesCoverComponents(config, stored, parts, ReportOf(config, stored, now).environment.state);
  }

  lemma OtherNetworkEnters(config: Config, stored: Stored, parts: Report, n: Network)
    requires n in stored.networks && n.classification == Collector.ObservedOther
    ensures OTHER_NETWORK in EnvironmentStatuses(config, stored, parts)
  {
    var others := OtherNetworks(stored.networks);
    assert others[0] == OTHER_NETWORK && others[0] in others;
  }

  /** An "observed other" network warns even after it has gone out of sight. */
  lemma {:induction false} OtherNetworkWarns(config: Config, stored: Stored, now: real, n: Network)
    requires n in stored.networks && n.classification == Collector.ObservedOther
    ensures AtLeastAsBad(ReportOf(config, stored, now).environment.state, Warning)
  {
    var parts := Components(config, stored, now);
    InsufficientKeepsTheState(config, stored, now);
    OtherNetworkEnters(config, stored, parts, n);
    MergeState(EnvironmentStatuses(config, stored, parts));
  }

  lemma QuietEnvironment(config: Config, stored: Stored, parts: Report)
    requires config.otbrs == [] && stored.otbrs == [] && OtherNetworks(stored.networks) == []
    requires parts.otbrs == [] && parts.servers == [] && parts.nodes == []
    requires parts.mdns.state == Healthy && parts.trel.state == Healthy
    ensures Merge(EnvironmentStatuses(config, stored, parts)).state == Healthy
  {
    var statuses := EnvironmentStatuses(config, stored, parts);
    assert ConfiguredIds(config, stored.otbrs) == {};
    assert forall s :: s in statuses ==> s.state == Healthy;
    MergeState(statuses);
  }

  lemma QuietMdns(config: Config, observer: Option<Observer>)
    requires Trusted(observer) && config.mdnsEnabled && config.limits.flapWarning > 0 && config.limits.flapDegraded > 0
    ensures MdnsHealth(config, observer, 0).state == Healthy
  {
    SingleState((Healthy, []));
  }

  lemma QuietTrel(config: Config, observer: Option<Observer>)
    requires Trusted(observer) && config.mdnsEnabled && config.limits.flapWarning > 0 && config.limits.flapDegraded > 0
    ensures TrelHealth(config, observer, [], 0).state == Healthy
  {
    SingleState((Healthy, []));
  }

  predicate HasReachableSource(n: Network, otbrs: seq<Otbr>) {
    exists o :: o in otbrs && o.reachable && o.id in n.sources
  }

  function NetworkState(n: Network, otbrs: seq<Otbr>): State {
    if !n.visible then Unknown
    else if n.classification == Collector.Primary && HasReachableSource(n, otbrs) then Healthy
    else Warning
  }

  lemma NetworkStateIs(n: Network, otbrs: seq<Otbr>)
    ensures NetworkHealth(n, otbrs).state == NetworkState(n, otbrs)
  {
    SingleState((Unknown, ["thread_network_not_visible"]));
    SingleState((Healthy, []));
    SingleState((Warning, ["observed_other_thread_network_visible"]));
    SingleState((Warning, ["primary_thread_network_unknown"]));
    SingleState((Warning, ["thread_network_source_otbrs_unreachable"]));
  }

  /** Some component or some rule of the environment is at least as bad as `level`, a state short of healthy. */
  predicate Notices(config: Config, stored: Stored, parts: Report, level: State) {
    || (exists s :: s in parts.otbrs + parts.servers + parts.nodes && AtLeastAsBad(s.state, level))
    || AtLeastAsBad(parts.mdns.state, level) || AtLeastAsBad(parts.trel.state, level)
    || (exists n :: n in stored.networks && n.classification == Collector.ObservedOther)
    || |ExtPanIds(config, stored.otbrs)| >= 2
    || PrimaryUnknown(config, stored.otbrs, stored.networks)
  }

  lemma RulesAtLevel(config: Config, stored: Stored, level: State)
    requires level == Warning || level == Unknown
    ensures AtLeastAsBad(DisagreementHealth(config, stored.otbrs).state, level) <==>
              |ExtPanIds(config, stored.otbrs)| >= 2
    ensures AtLeastAsBad(PrimaryUnknownHealth(config, stored.otbrs, stored.networks).state, level)
            <==> PrimaryUnknown(config, stored.otbrs, stored.networks)
    ensures (exists s :: s in OtherNetworks(stored.networks) && AtLeastAsBad(s.state, level))
            <==> exists n :: n in stored.networks && n.classification == Collector.ObservedOther
  {
    DisagreementIsDegraded(config, stored.otbrs);
    PrimaryUnknownWarns(config, stored.otbrs, stored.networks);
    var others := OtherNetworks(stored.networks);
    assert others != [] ==> others[0] in others;
  }

  predicate SomeAtLevel(statuses: seq<Status>, level: State) {
    exists s :: s in statuses && AtLeastAsBad(s.state, level)
  }

  lemma MergeAtLevel(statuses: seq<Status>, level: State)
    requires statuses != []
    ensures AtLeastAsBad(Merge(statuses).state, level) <==> SomeAtLevel(statuses, level)
  {
    MergeState(statuses);
  }

  lemma LevelOfConcat(a: seq<Status>, b: seq<Status>, level: State)
    ensures SomeAtLevel(a + b, level) <==> SomeAtLevel(a, level) || SomeAtLevel(b, level)
  {
    assert forall s :: s in a + b <==> s in a || s in b;
  }

  lemma LevelOfFour(a: Status, b: Status, c: Status, d: Status, level: State)
    ensures SomeAtLevel([a, b, c, d], level) <==>
              AtLeastAsBad(a.state, level) || AtLeastAsBad(b.state, level) || AtLeastAsBad(c.state, level) ||
                  AtLeastAsBad(d.state, level)
  {
    var all := [a, b, c, d];
    assert a == all[0] && b == all[1] && c == all[2] && d == all[3];
    assert a in all && b in all && c in all && d in all;
  }

  lemma NoticedAtLevel(config: Config, stored: Stored, parts: Report, level: State)
    requires level == Warning || level == Unknown
    ensures AtLeastAsBad(Merge(EnvironmentStatuses(config, stored, parts)).state, level) <==>
              Notices(config, stored, parts, level)
  {
    var components, others := parts.otbrs + parts.servers + parts.nodes, OtherNetworks(stored.networks);
    var disagree, primary := DisagreementHealth(config, stored.otbrs),
        PrimaryUnknownHealth(config, stored.otbrs, stored.networks);
    MergeAtLevel(EnvironmentStatuses(config, stored, parts), level);
    LevelOfConcat(components + others, [parts.mdns, parts.trel, disagree, primary], level);
    LevelOfConcat(components, others, level);
    LevelOfFour(parts.mdns, parts.trel, disagree, primary, level);
    RulesAtLevel(config, stored, level);
  }

  lemma EnvironmentNotices(config: Config, stored: Stored, now: real, level: State)
    requires level == Warning || level == Unknown
    ensures var report := ReportOf(config, stored, now);
            AtLeastAsBad(report.environment.state, level) <==> Notices(config, stored, report, level)
  {
    InsufficientKeepsTheState(config, stored, now);
    NoticedAtLevel(config, stored, Components(config, stored, now), level);
  }

  lemma LevelIsNoticed(config: Config, stored: Stored, now: real, level: State)
    requires level in [Healthy, Warning, Unknown]
    ensures var report := ReportOf(config, stored, now);
            AtLeastAsBad(report.environment.state, level) <==>
              (level == Healthy || Notices(config, stored, report, level))
  {
    if level != Healthy {
      EnvironmentNotices(config, stored, now, level);
    }
  }

  lemma NetworkStates(n: Network, otbrs: seq<Otbr>)
    ensures NetworkState(n, otbrs) in [Healthy, Warning, Unknown]
  {
  }

  /**
   For every network: the environment is at least as bad as the network exactly when the network is
   healthy or some component or environment rule is at least as bad as it is. The network's own
   health is not among them.
   */
  lemma {:induction false} NetworkIsNoticedExactlyWhen(config: Config, stored: Stored, now: real, n: Network)
    ensures var report, level := ReportOf(config, stored, now), NetworkState(n, stored.otbrs);
            && NetworkHealth(n, stored.otbrs).state == level
            && (AtLeastAsBad(report.environment.state, level) <==>
                (level == Healthy || Notices(config, stored, report, level)))
  {
    NetworkStateIs(n, stored.otbrs);
    NetworkStates(n, stored.otbrs);
    LevelIsNoticed(config, stored, now, NetworkState(n, stored.otbrs));
  }

  /** A store that holds one Thread network and nothing else, watched by a working observer. */
  function OnlyNetwork(network: Network): Stored {
    Stored([], [], [], [network], [], Some(Observer(true, Some(false))), [])
  }

  lemma OnlyNetworkComponents(config: Config, network: Network, now: real)
    requires config.otbrs == [] && config.servers == []
    ensures var parts := Components(config, OnlyNetwork(network), now);
            && parts.otbrs == [] && parts.servers == [] && parts.nodes == []
            && parts.networks == [NetworkHealth(network, [])]
            && parts.mdns == MdnsHealth(config, OnlyNetwork(network).observer, 0)
            && parts.trel == TrelHealth(config, OnlyNetwork(network).observer, [], 0)
  {
  }

  /** Both ways to be missed: a visible network warns, an invisible one is unknown, and the environment is healthy. */
  lemma {:induction false} NetworkCanBeMissed(config: Config, network: Network, now: real)
    requires config.otbrs == [] && config.servers == [] && config.mdnsEnabled
    requires config.limits.flapWarning > 0 && config.limits.flapDegraded > 0
    requires network.classification != Collector.ObservedOther
    ensures var report := ReportOf(config, OnlyNetwork(network), now);
            && report.networks[0].state == (if network.visible then Warning else Unknown)
            && report.environment.state == Healthy
  {
    var stored := OnlyNetwork(network);
    OnlyNetworkComponents(config, network, now);
    NetworkStateIs(network, []);
    assert [network][..0] == [];
    QuietMdns(config, stored.observer);
    QuietTrel(config, stored.observer);
    QuietEnvironment(config, stored, Components(config, stored, now));
    InsufficientKeepsTheState(config, stored, now);
  }

  /** The overall status is the environment's, reasons included. */
  lemma {:induction false} OverallIsTheEnvironment(config: Config, stored: Stored, now: real)
    ensures ReportOf(config, stored, now).overall == ReportOf(config, stored, now).environment
  {
    var parts := Components(config, stored, now);
    var statuses := EnvironmentStatuses(config, stored, parts);
    var inputs := if InsufficientData(config, stored, now) then [Merge(statuses), INSUFFICIENT] else statuses;
    assert ReportOf(config, stored, now).environment == Merge(inputs);
    MergingAgain(inputs);
  }

  lemma MergingAgain(statuses: seq<Status>)
    requires statuses != []
    ensures Merge([Merge(statuses)]) == Merge(statuses)
  {
    MergedReasonsAreDistinct(statuses);
    MergeOne(Merge(statuses));
  }

  lemma MergedReasonsAreDistinct(statuses: seq<Status>)
    requires statuses != []
    ensures Distinct(Merge(statuses).reasons) == Merge(statuses).reasons
  {
    DistinctOfDistinct(ReasonsAt(statuses, Merge(statuses).state));
  }

  lemma MergeOne(s: Status)
    ensures Merge([s]) == Status(s.state, Distinct(s.reasons))
  {
    assert [s][..0] == [];
    assert States([s]) == [s.state];
    assert [] + s.reasons == s.reasons;
    assert ReasonsAt([s], s.state) == s.reasons;
  }

  // ----- when the environment is critical -----

  predicate Mild(candidates: seq<Candidate>) {
    forall c :: c in candidates ==> c.0 != Critical
  }

  lemma MildMerge(candidates: seq<Candidate>)
    requires candidates != [] && Mild(candidates)
    ensures Merge(AsStatuses(candidates)).state != Critical
  {
    var statuses := AsStatuses(candidates);
    MergeState(statuses);
    forall s | s in statuses ensures s.state != Critical {
      var i :| 0 <= i < |statuses| && statuses[i] == s;
      assert candidates[i] in candidates;
    }
  }

  lemma SingleState(c: Candidate)
    ensures Merge(AsStatuses([c])).state == c.0
  {
    assert [c][..0] == [];
    assert AsStatuses([c]) == [Status(c.0, c.1)];
    assert States(AsStatuses([c])) == [c.0];
  }

  lemma OtbrCritical(o: Otbr, limits: Thresholds)
    ensures OtbrHealth(o, limits).state == Critical <==> !o.reachable
  {
    if o.reachable {
      MildMerge(OtbrCandidates(o, limits));
    } else {
      SingleState((Critical, ["otbr_unreachable"]));
    }
  }

  lemma ServerCritical(s: Server)
    ensures ServerHealth(s).state == Critical <==> !s.connected
  {
    if s.connected {
      MildMerge(ServerCandidates(s));
    } else {
      SingleState((Critical, ["matter_server_disconnected"]));
    }
  }

  /** Known to be unavailable, with a `last_unavailable` at least the configured minutes old. */
  predicate DownTooLong(n: Node, server: Option<Server>, limits: Thresholds, now: real) {
    && server.Some? && server.value.availabilityAvailable && !n.available
    && MinutesDown(n, now) >= limits.unavailableCriticalMinutes as real
  }

  lemma MildConcat(a: seq<Candidate>, b: seq<Candidate>)
    requires Mild(a) && Mild(b)
    ensures Mild(a + b)
  {
  }

  lemma MildProbeRules(n: Node, limits: Thresholds)
    ensures Mild(ProbeRules(n, limits))
  {
  }

  lemma MildAnswering(n: Node, limits: Thresholds)
    ensures Mild(AnsweringRules(n, limits))
  {
    MildProbeRules(n, limits);
    MildConcat(FlapRule(n, limits), ProbeRules(n, limits));
    MildConcat(FlapRule(n, limits) + ProbeRules(n, limits), PingRule(n));
  }

  lemma NodeRulesAreMild(n: Node, server: Option<Server>, limits: Thresholds, now: real)
    requires !DownTooLong(n, server, limits, now)
    ensures Mild(NodeCandidates(n, server, limits, now))
  {
    MildAnswering(n, limits);
  }

  lemma NodeCritical(n: Node, server: Option<Server>, limits: Thresholds, now: real)
    ensures NodeHealth(n, server, limits, now).state == Critical <==> DownTooLong(n, server, limits, now)
  {
    if DownTooLong(n, server, limits, now) {
      SingleState((Critical, ["matter_node_unavailable_critical"]));
    } else {
      NodeRulesAreMild(n, server, limits, now);
      MildMerge(NodeCandidates(n, server, limits, now));
    }
  }

  lemma MdnsRulesAreMild(observer: Option<Observer>, flaps: nat, limits: Thresholds)
    ensures Mild(MdnsCandidates(observer, flaps, limits))
  {
  }

  lemma MdnsIsMild(config: Config, observer: Option<Observer>, flaps: nat)
    ensures MdnsHealth(config, observer, flaps).state != Critical
  {
    MdnsRulesAreMild(observer, flaps, config.limits);
    MildMerge(MdnsCandidates(observer, flaps, config.limits));
  }

  lemma TrelRulesAreMild(config: Config, trel: seq<TrelService>, flaps: nat)
    ensures Mild(TrelCandidates(config, trel, flaps))
  {
  }

  lemma TrelIsMild(config: Config, observer: Option<Observer>, trel: seq<TrelService>, flaps: nat)
    ensures TrelHealth(config, observer, trel, flaps).state != Critical
  {
    if TrelCandidates(config, trel, flaps) == [] {
      TrelQuiet(config, observer, trel, flaps);
    } else {
      TrelRulesAreMild(config, trel, flaps);
      MildMerge(TrelCandidates(config, trel, flaps));
    }
  }

  predicate AnyCritical(statuses: seq<Status>) {
    exists i :: 0 <= i < |statuses| && statuses[i].state == Critical
  }

  lemma AnyCriticalConcat(a: seq<Status>, b: seq<Status>)
    ensures AnyCritical(a + b) <==> AnyCritical(a) || AnyCritical(b)
  {
    if AnyCritical(a) {
      var i :| 0 <= i < |a| && a[i].state == Critical;
      assert (a + b)[i] == a[i];
    }
    if AnyCritical(b) {
      var i :| 0 <= i < |b| && b[i].state == Critical;
      assert (a + b)[|a| + i] == b[i];
    }
  }

  lemma MergeCritical(statuses: seq<Status>)
    requires statuses != []
    ensures Merge(statuses).state == Critical <==> AnyCritical(statuses)
  {
    MergeState(statuses);
    if AnyCritical(statuses) {
      var i :| 0 <= i < |statuses| && statuses[i].state == Critical;
      assert statuses[i] in statuses;
    }
  }

  lemma RestIsMild(config: Config, stored: Stored, parts: Report)
    requires parts.mdns.state != Critical && parts.trel.state != Critical
    ensures !AnyCritical(OtherNetworks(stored.networks))
    ensures !AnyCritical([parts.mdns, parts.trel, DisagreementHealth(config, stored.otbrs),
                          PrimaryUnknownHealth(config, stored.otbrs, stored.networks)])
  {
    var others := OtherNetworks(stored.networks);
    forall i | 0 <= i < |others| ensures others[i].state != Critical {
      assert others[i] in others;
    }
  }

  lemma CriticalComesFromParts(config: Config, stored: Stored, parts: Report)
    requires parts.mdns.state != Critical && parts.trel.state != Critical
    ensures Merge(EnvironmentStatuses(config, stored, parts)).state == Critical <==>
              AnyCritical(parts.otbrs) || AnyCritical(parts.servers) || AnyCritical(parts.nodes)
  {
    var others := OtherNetworks(stored.networks);
    var tail := [parts.mdns, parts.trel, DisagreementHealth(config, stored.otbrs),
                 PrimaryUnknownHealth(config, stored.otbrs, stored.networks)];
    RestIsMild(config, stored, parts);
    AnyCriticalConcat(parts.otbrs, parts.servers);
    AnyCriticalConcat(parts.otbrs + parts.servers, parts.nodes);
    AnyCriticalConcat(parts.otbrs + parts.servers + parts.nodes, others);
    AnyCriticalConcat(parts.otbrs + parts.servers + parts.nodes + others, tail);
    MergeCritical(EnvironmentStatuses(config, stored, parts));
  }

  lemma CriticalOtbrs(ids: seq<string>, otbrs: seq<Otbr>, limits: Thresholds)
    ensures AnyCritical(OtbrList(ids, otbrs, limits)) <==>
              exists i :: 0 <= i < |ids| && FindOtbr(otbrs, ids[i]).Some? && !FindOtbr(otbrs, ids[i]).value.reachable
  {
    var all := OtbrList(ids, otbrs, limits);
    forall i | 0 <= i < |ids|
      ensures all[i].state == Critical <==> FindOtbr(otbrs, ids[i]).Some? && !FindOtbr(otbrs, ids[i]).value.reachable
    {
      if FindOtbr(otbrs, ids[i]).Some? {
        OtbrCritical(FindOtbr(otbrs, ids[i]).value, limits);
      }
    }
  }

  lemma CriticalServers(ids: seq<string>, servers: seq<Server>)
    ensures AnyCritical(ServerList(ids, servers)) <==>
              exists i :: 0 <= i < |ids|
                          && FindServer(servers, ids[i]).Some? && !FindServer(servers, ids[i]).value.connected
  {
    var all := ServerList(ids, servers);
    forall i | 0 <= i < |ids|
      ensures all[i].state == Critical <==>
                (FindServer(servers, ids[i]).Some? && !FindServer(servers, ids[i]).value.connected)
    {
      if FindServer(servers, ids[i]).Some? {
        ServerCritical(FindServer(servers, ids[i]).value);
      }
    }
  }

  lemma CriticalNodes(nodes: seq<Node>, servers: seq<Server>, limits: Thresholds, now: real)
    ensures AnyCritical(NodeList(nodes, servers, limits, now)) <==>
              exists i :: 0 <= i < |nodes| && DownTooLong(nodes[i], LastServer(servers, nodes[i].serverId), limits, now)
  {
    var all := NodeList(nodes, servers, limits, now);
    forall i | 0 <= i < |nodes|
      ensures all[i].state == Critical <==> DownTooLong(nodes[i], LastServer(servers, nodes[i].serverId), limits, now)
    {
      NodeCritical(nodes[i], LastServer(servers, nodes[i].serverId), limits, now);
    }
  }

  /**
   The environment is critical exactly when a configured border router is stored as unreachable, a
   configured Matter server as disconnected, or a node as unavailable with a `last_unavailable` that
   is too old.
   */
  lemma {:induction false} CriticalExactlyWhen(config: Config, stored: Stored, now: real)
    ensures ReportOf(config, stored, now).environment.state == Critical <==>
              || (exists i :: 0 <= i < |config.otbrs| && FindOtbr(stored.otbrs, config.otbrs[i]).Some?
                              && !FindOtbr(stored.otbrs, config.otbrs[i]).value.reachable)
              || (exists i :: 0 <= i < |config.servers| && FindServer(stored.servers, config.servers[i]).Some?
                              && !FindServer(stored.servers, config.servers[i]).value.connected)
              || (exists i :: 0 <= i < |stored.nodes|
                              && DownTooLong(stored.nodes[i], LastServer(stored.servers, stored.nodes[i].serverId),
                                  config.limits, now))
  {
    InsufficientKeepsTheState(config, stored, now);
    MdnsIsMild(config, stored.observer, Flaps(stored.log, MDNS_FLAP_EVENTS, now - 3600.0));
    TrelIsMild(config, stored.observer, stored.trel, Flaps(stored.log, TREL_FLAP_EVENTS, now - 3600.0));
    CriticalComesFromParts(config, stored, Components(config, stored, now));
    CriticalOtbrs(config.otbrs, stored.otbrs, config.limits);
    CriticalServers(config.servers, stored.servers);
    CriticalNodes(stored.nodes, stored.servers, config.limits, now);
  }

  // ----- more faults never improve anything -----

  /** Every candidate of `a` is matched by one of `b` that is at least as bad. */
  predicate Covers(b: seq<Candidate>, a: seq<Candidate>) {
    forall c :: c in a ==> exists d :: d in b && AtLeastAsBad(d.0, c.0)
  }

  lemma CoversConcat(b1: seq<Candidate>, a1: seq<Candidate>, b2: seq<Candidate>, a2: seq<Candidate>)
    requires Covers(b1, a1) && Covers(b2, a2)
    ensures Covers(b1 + b2, a1 + a2)
  {
    forall c | c in a1 + a2 ensures exists d :: d in b1 + b2 && AtLeastAsBad(d.0, c.0) {
      if c in a1 {
        var d :| d in b1 && AtLeastAsBad(d.0, c.0);
        assert d in b1 + b2;
      } else {
        var d :| d in b2 && AtLeastAsBad(d.0, c.0);
        assert d in b1 + b2;
      }
    }
  }

  lemma CoversItself(a: seq<Candidate>)
    ensures Covers(a, a)
  {
  }

  lemma CoversOrHealthy(b: seq<Candidate>, a: seq<Candidate>)
    requires Covers(b, a)
    ensures Covers(OrHealthy(b), OrHealthy(a))
  {
    if a == [] {
      assert OrHealthy(b)[0] in OrHealthy(b);
    } else {
      assert a[0] in a;
    }
  }

  lemma GradedCovers(low: int, high: int, warning: nat, degraded: nat, w: string, d: string)
    requires low <= high
    ensures Covers(Graded(high, warning, degraded, w, d), Graded(low, warning, degraded, w, d))
  {
    var b := Graded(high, warning, degraded, w, d);
    assert b != [] ==> b[0] in b;
  }

  lemma CoveredMergeIsWorse(b: seq<Candidate>, a: seq<Candidate>)
    requires a != [] && b != [] && Covers(b, a)
    ensures AtLeastAsBad(Merge(AsStatuses(b)).state, Merge(AsStatuses(a)).state)
  {
    var x, y := States(AsStatuses(a)), States(AsStatuses(b));
    forall s | s in x ensures exists t :: t in y && AtLeastAsBad(t, s) {
      var i :| 0 <= i < |x| && x[i] == s;
      assert a[i] in a;
      var d :| d in b && AtLeastAsBad(d.0, a[i].0);
      var j :| 0 <= j < |b| && b[j] == d;
      assert y[j] in y;
    }
    WorstIsMonotone(x, y);
  }

  /** A missing count is below every count. */
  predicate Raised(a: Option<int>, b: Option<int>) {
    a.None? || (b.Some? && a.value <= b.value)
  }

  predicate OtbrRaised(a: Otbr, b: Otbr) {
    b == a.(roleChanges := b.roleChanges, roleEvents := b.roleEvents) && RoleChanges(a) <= RoleChanges(b)
  }

  predicate NodeRaised(a: Node, b: Node) {
    && b == a.(flaps := b.flaps, probeFailures := b.probeFailures)
    && Raised(a.flaps, b.flaps) && Raised(a.probeFailures, b.probeFailures)
  }

  predicate OtbrsRaised(a: seq<Otbr>, b: seq<Otbr>) {
    |a| == |b| && forall i :: 0 <= i < |a| ==> OtbrRaised(a[i], b[i])
  }

  predicate NodesRaised(a: seq<Node>, b: seq<Node>) {
    |a| == |b| && forall i :: 0 <= i < |a| ==> NodeRaised(a[i], b[i])
  }

  /** `b` differs from `a` only in larger role-change, flap and probe-failure counts. */
  predicate MoreFaults(a: Stored, b: Stored, now: real) {
    && b == a.(otbrs := b.otbrs, nodes := b.nodes, log := b.log)
    && OtbrsRaised(a.otbrs, b.otbrs) && NodesRaised(a.nodes, b.nodes)
    && Flaps(a.log, MDNS_FLAP_EVENTS, now - 3600.0) <= Flaps(b.log, MDNS_FLAP_EVENTS, now - 3600.0)
    && Flaps(a.log, TREL_FLAP_EVENTS, now - 3600.0) <= Flaps(b.log, TREL_FLAP_EVENTS, now - 3600.0)
  }

  lemma OtbrRulesCover(a: Otbr, b: Otbr, limits: Thresholds)
    requires OtbrRaised(a, b)
    ensures Covers(OtbrCandidates(b, limits), OtbrCandidates(a, limits))
  {
    GradedCovers(RoleChanges(a), RoleChanges(b), limits.roleWarning, limits.roleDegraded,
      "otbr_role_flapping_warning", "otbr_role_flapping_degraded");
    CoversConcat(SetupRules(a), SetupRules(a), RoleRule(b, limits), RoleRule(a, limits));
    CoversOrHealthy(SetupRules(a) + RoleRule(b, limits), SetupRules(a) + RoleRule(a, limits));
  }

  lemma {:induction false} OtbrNeverImproves(a: Otbr, b: Otbr, limits: Thresholds)
    requires OtbrRaised(a, b)
    ensures AtLeastAsBad(OtbrHealth(b, limits).state, OtbrHealth(a, limits).state)
  {
    OtbrRulesCover(a, b, limits);
    CoveredMergeIsWorse(OtbrCandidates(b, limits), OtbrCandidates(a, limits));
  }

  lemma FlapRuleCovers(a: Node, b: Node, limits: Thresholds)
    requires NodeRaised(a, b)
    ensures Covers(FlapRule(b, limits), FlapRule(a, limits))
  {
    if a.flaps.Some? {
      GradedCovers(a.flaps.value, b.flaps.value, limits.availabilityWarning, limits.availabilityDegraded,
        "matter_node_availability_flapping_warning", "matter_node_availability_flapping_degraded");
    }
  }

  lemma ProbeRulesCover(a: Node, b: Node, limits: Thresholds)
    requires NodeRaised(a, b)
    ensures Covers(ProbeRules(b, limits), ProbeRules(a, limits))
  {
    if a.probeDiagnostics && !a.probeLimited {
      var failed := When(a.probeOk == Some(false), Warning, "matter_node_read_probe_failed");
      var reason := "matter_node_read_probe_failures_24h";
      var low := if a.probeFailures.None? then [] else
        Graded(a.probeFailures.value, limits.probeWarning, limits.probeDegraded, reason, reason);
      var high := if b.probeFailures.None? then [] else
        Graded(b.probeFailures.value, limits.probeWarning, limits.probeDegraded, reason, reason);
      if a.probeFailures.Some? {
        GradedCovers(a.probeFailures.value, b.probeFailures.value, limits.probeWarning, limits.probeDegraded, reason,
            reason);
      }
      CoversItself(failed);
      CoversConcat(failed, failed, high, low);
    }
  }

  lemma AnsweringRulesCover(a: Node, b: Node, limits: Thresholds)
    requires NodeRaised(a, b)
    ensures Covers(AnsweringRules(b, limits), AnsweringRules(a, limits))
  {
    FlapRuleCovers(a, b, limits);
    ProbeRulesCover(a, b, limits);
    var low, high := FlapRule(a, limits), FlapRule(b, limits);
    CoversConcat(high, low, ProbeRules(b, limits), ProbeRules(a, limits));
    assert PingRule(a) == PingRule(b);
    CoversItself(PingRule(a));
    CoversConcat(high + ProbeRules(b, limits), low + ProbeRules(a, limits), PingRule(b), PingRule(a));
  }

  lemma NodeRulesCover(a: Node, b: Node, server: Option<Server>, limits: Thresholds, now: real)
    requires NodeRaised(a, b)
    ensures Covers(NodeCandidates(b, server, limits, now), NodeCandidates(a, server, limits, now))
  {
    AnsweringRulesCover(a, b, limits);
    CoversOrHealthy(AnsweringRules(b, limits), AnsweringRules(a, limits));
  }

  lemma {:induction false} NodeNeverImproves(a: Node, b: Node, server: Option<Server>, limits: Thresholds, now: real)
    requires NodeRaised(a, b)
    ensures AtLeastAsBad(NodeHealth(b, server, limits, now).state, NodeHealth(a, server, limits, now).state)
  {
    NodeRulesCover(a, b, server, limits, now);
    CoveredMergeIsWorse(NodeCandidates(b, server, limits, now), NodeCandidates(a, server, limits, now));
  }

  lemma FlapCandidatesCover(low: nat, high: nat, limits: Thresholds)
    requires low <= high
    ensures Covers(FlapCandidates(high, limits), FlapCandidates(low, limits))
  {
    GradedCovers(low, high, limits.flapWarning, limits.flapDegraded,
      "mdns_service_flapping_warning", "mdns_service_flapping_degraded");
  }

  lemma MdnsNeverImproves(config: Config, observer: Option<Observer>, low: nat, high: nat)
    requires low <= high
    ensures AtLeastAsBad(MdnsHealth(config, observer, high).state, MdnsHealth(config, observer, low).state)
  {
    MdnsRulesCover(observer, low, high, config.limits);
    CoveredMergeIsWorse(MdnsCandidates(observer, high, config.limits), MdnsCandidates(observer, low, config.limits));
  }

  lemma MdnsRulesCover(observer: Option<Observer>, low: nat, high: nat, limits: Thresholds)
    requires low <= high
    ensures Covers(MdnsCandidates(observer, high, limits), MdnsCandidates(observer, low, limits))
  {
    FlapCandidatesCover(low, high, limits);
    CoversOrHealthy(FlapCandidates(high, limits), FlapCandidates(low, limits));
  }

  /** A TREL rule that fires is at least a warning. */
  lemma TrelWarns(config: Config, trel: seq<TrelService>, flaps: nat)
    requires TrelCandidates(config, trel, flaps) != []
    ensures AtLeastAsBad(Merge(AsStatuses(TrelCandidates(config, trel, flaps))).state, Warning)
  {
    var candidates, warning: Candidate := TrelCandidates(config, trel, flaps), (Warning, []);
    assert candidates[0] in candidates && AtLeastAsBad(candidates[0].0, Warning);
    CoveredMergeIsWorse(candidates, [warning]);
    SingleState(warning);
  }

  lemma TrelQuiet(config: Config, observer: Option<Observer>, trel: seq<TrelService>, flaps: nat)
    requires TrelCandidates(config, trel, flaps) == []
    ensures AtLeastAsBad(Warning, TrelHealth(config, observer, trel, flaps).state)
  {
    SingleState((Healthy, []));
    SingleState((Unknown, ["mdns_observation_capability_unknown"]));
  }

  lemma {:induction false} TrelNeverImproves(config: Config, observer: Option<Observer>, trel: seq<TrelService>,
      low: nat, high: nat)
    requires low <= high
    ensures AtLeastAsBad(TrelHealth(config, observer, trel, high).state, TrelHealth(config, observer, trel, low).state)
  {
    var foreign := ForeignRule(trel);
    var a, b := TrelCandidates(config, trel, low), TrelCandidates(config, trel, high);
    FlapCandidatesCover(low, high, config.limits);
    CoversConcat(foreign, foreign, FlapCandidates(high, config.limits), FlapCandidates(low, config.limits));
    if a != [] {
      assert a[0] in a;
      CoveredMergeIsWorse(b, a);
    } else {
      TrelQuiet(config, observer, trel, low);
      if b != [] {
        TrelWarns(config, trel, high);
      }
    }
  }

  // ----- raising counts in the store -----

  lemma {:induction false} FindRaised(a: seq<Otbr>, b: seq<Otbr>, id: string)
    requires OtbrsRaised(a, b)
    ensures FindOtbr(a, id).Some? <==> FindOtbr(b, id).Some?
    ensures FindOtbr(a, id).Some? ==> OtbrRaised(FindOtbr(a, id).value, FindOtbr(b, id).value)
  {
    if a != [] {
      assert OtbrRaised(a[0], b[0]);
      FindRaised(a[1..], b[1..], id);
    }
  }

  lemma {:induction false} ByIdRaised(a: seq<Otbr>, b: seq<Otbr>)
    requires OtbrsRaised(a, b)
    ensures ById(a).Keys == ById(b).Keys
    ensures forall id :: id in ById(a) ==> OtbrRaised(ById(a)[id], ById(b)[id])
  {
    if a != [] {
      var n := |a| - 1;
      assert OtbrRaised(a[n], b[n]);
      ByIdRaised(a[..n], b[..n]);
    }
  }

  /** Disagreement and the unknown-primary rule do not look at the counts. */
  lemma SameNetworkView(config: Config, a: seq<Otbr>, b: seq<Otbr>, networks: seq<Network>)
    requires OtbrsRaised(a, b)
    ensures DisagreementHealth(config, a) == DisagreementHealth(config, b)
    ensures PrimaryUnknownHealth(config, a, networks) == PrimaryUnknownHealth(config, b, networks)
  {
    ByIdRaised(a, b);
    assert ConfiguredIds(config, a) == ConfiguredIds(config, b);
    assert ReachableIds(config, a) == ReachableIds(config, b);
    assert ExtPanIds(config, a) == ExtPanIds(config, b);
  }

  /** Position by position, `b` is at least as bad as `a`. */
  predicate NoBetter(b: seq<Status>, a: seq<Status>) {
    |a| == |b| && forall i :: 0 <= i < |a| ==> AtLeastAsBad(b[i].state, a[i].state)
  }

  lemma NoBetterMerges(b: seq<Status>, a: seq<Status>)
    requires NoBetter(b, a) && a != []
    ensures AtLeastAsBad(Merge(b).state, Merge(a).state)
  {
    var x, y := States(a), States(b);
    forall s | s in x ensures exists t :: t in y && AtLeastAsBad(t, s) {
      var i :| 0 <= i < |x| && x[i] == s;
      assert AtLeastAsBad(b[i].state, a[i].state);
      assert y[i] in y;
    }
    WorstIsMonotone(x, y);
  }

  lemma OtbrListNoBetter(ids: seq<string>, a: seq<Otbr>, b: seq<Otbr>, limits: Thresholds)
    requires OtbrsRaised(a, b)
    ensures NoBetter(OtbrList(ids, b, limits), OtbrList(ids, a, limits))
  {
    forall i | 0 <= i < |ids|
      ensures AtLeastAsBad(ConfiguredOtbr(b, limits, ids[i]).state, ConfiguredOtbr(a, limits, ids[i]).state)
    {
      FindRaised(a, b, ids[i]);
      if FindOtbr(a, ids[i]).Some? {
        OtbrNeverImproves(FindOtbr(a, ids[i]).value, FindOtbr(b, ids[i]).value, limits);
      }
    }
  }

  lemma NodeListNoBetter(a: seq<Node>, b: seq<Node>, servers: seq<Server>, limits: Thresholds, now: real)
    requires NodesRaised(a, b)
    ensures NoBetter(NodeList(b, servers, limits, now), NodeList(a, servers, limits, now))
  {
    forall i | 0 <= i < |a|
      ensures AtLeastAsBad(StoredNode(b[i], servers, limits, now).state, StoredNode(a[i], servers, limits, now).state)
    {
      assert NodeRaised(a[i], b[i]);
      NodeNeverImproves(a[i], b[i], LastServer(servers, a[i].serverId), limits, now);
    }
  }

  lemma NoBetterConcat(b1: seq<Status>, a1: seq<Status>, b2: seq<Status>, a2: seq<Status>)
    requires NoBetter(b1, a1) && NoBetter(b2, a2)
    ensures NoBetter(b1 + b2, a1 + a2)
  {
  }

  lemma NoBetterTail(b: Report, a: Report, otbrs: Status, primary: Status)
    requires AtLeastAsBad(b.mdns.state, a.mdns.state) && AtLeastAsBad(b.trel.state, a.trel.state)
    ensures NoBetter([b.mdns, b.trel, otbrs, primary], [a.mdns, a.trel, otbrs, primary])
  {
  }

  lemma ComponentsNoBetter(config: Config, a: Stored, b: Stored, now: real)
    requires MoreFaults(a, b, now)
    ensures var (x, y) := (Components(config, a, now), Components(config, b, now));
            && NoBetter(y.otbrs, x.otbrs) && y.servers == x.servers && NoBetter(y.nodes, x.nodes)
            && AtLeastAsBad(y.mdns.state, x.mdns.state) && AtLeastAsBad(y.trel.state, x.trel.state)
  {
    var since := now - 3600.0;
    OtbrListNoBetter(config.otbrs, a.otbrs, b.otbrs, config.limits);
    NodeListNoBetter(a.nodes, b.nodes, a.servers, config.limits, now);
    MdnsNeverImproves(config, a.observer, Flaps(a.log, MDNS_FLAP_EVENTS, since), Flaps(b.log, MDNS_FLAP_EVENTS, since));
    TrelNeverImproves(config, a.observer, a.trel, Flaps(a.log, TREL_FLAP_EVENTS, since),
        Flaps(b.log, TREL_FLAP_EVENTS, since));
  }

  lemma StatusesNoBetter(config: Config, a: Stored, b: Stored, x: Report, y: Report)
    requires OtbrsRaised(a.otbrs, b.otbrs) && a.networks == b.networks
    requires NoBetter(y.otbrs, x.otbrs) && y.servers == x.servers && NoBetter(y.nodes, x.nodes)
    requires AtLeastAsBad(y.mdns.state, x.mdns.state) && AtLeastAsBad(y.trel.state, x.trel.state)
    ensures NoBetter(EnvironmentStatuses(config, b, y), EnvironmentStatuses(config, a, x))
  {
    SameNetworkView(config, a.otbrs, b.otbrs, a.networks);
    var disagree, primary := DisagreementHealth(config, a.otbrs), PrimaryUnknownHealth(config, a.otbrs, a.networks);
    var others := OtherNetworks(a.networks);
    NoBetterTail(y, x, disagree, primary);
    NoBetterConcat(y.otbrs, x.otbrs, x.servers, x.servers);
    NoBetterConcat(y.otbrs + x.servers, x.otbrs + x.servers, y.nodes, x.nodes);
    NoBetterConcat(y.otbrs + x.servers + y.nodes, x.otbrs + x.servers + x.nodes, others, others);
    NoBetterConcat(y.otbrs + x.servers + y.nodes + others, x.otbrs + x.servers + x.nodes + others,
      [y.mdns, y.trel, disagree, primary], [x.mdns, x.trel, disagree, primary]);
  }

  /**
   Raising role-change, flap or probe-failure counts never improves the environment, whatever the
   thresholds are; not even when the degraded limit is below the warning limit.
   */
  lemma {:induction false} FaultsNeverHelp(config: Config, a: Stored, b: Stored, now: real)
    requires MoreFaults(a, b, now)
    ensures AtLeastAsBad(ReportOf(config, b, now).environment.state, ReportOf(config, a, now).environment.state)
  {
    var x, y := Components(config, a, now), Components(config, b, now);
    InsufficientKeepsTheState(config, a, now);
    InsufficientKeepsTheState(config, b, now);
    ComponentsNoBetter(config, a, b, now);
    StatusesNoBetter(config, a, b, x, y);
    NoBetterMerges(EnvironmentStatuses(config, b, y), EnvironmentStatuses(config, a, x));
  }
}
