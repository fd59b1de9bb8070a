/**
 The Matter server observer: a cache of nodes mirrored into stored rows, the transitions decided
 for each node and for the connection, and the reconnect waits.
 */
module MatterObserver {
  import opened Containers
  import opened Histories
  import Decimal

  /**
   `product` stands for every field a report may leave out, `learned` for every field only probe
   runs write (the unsupported paths above all).
   */
  datatype Node = Node(
    id: int, serverId: string, available: bool, lastUnavailable: Option<int>, lastSeen: int,
    product: Option<string>, learned: seq<string>)

  /** A parsed node payload. */
  datatype Report = Report(id: int, available: Option<bool>, product: Option<string>, attributes: Option<set<string>>)

  /** What was decided for one node; `Loaded` and `Seen` record the availability it started with. */
  datatype Event = Loaded(up: bool) | Seen(up: bool) | Down | Up | Removed

  type Transitions = Log<int, Event>

  datatype World = World(
    nodes: map<int, Node>, attributeKeys: map<int, set<string>>, rows: map<string, Node>, connected: bool,
    log: Transitions, serverLog: seq<bool>)

  /**
   Handling a report is suspended between deciding and storing; `meanwhile` are the copies that
   probe runs write during that time. It may be given up there, because the observer is stopped or
   the storage raises.
   */
  datatype Step =
    | Reported(report: Report, now: int, meanwhile: seq<Node>)
    | GivenUp(report: Report, meanwhile: seq<Node>)
    | NodeRemoved(id: int)
    | Persisted(copy: Node)
    | Connected
    | Disconnected
    | Restarted
  {
    /** The copies of nodes that probe runs write in this step. */
    function Copies(): seq<Node> {
      match this
      case Reported(_, _, meanwhile) => meanwhile
      case GivenUp(_, meanwhile) => meanwhile
      case Persisted(copy) => [copy]
      case _ => []
    }
  }

  // ----- keys -----

  /** `_node_subject_id`. */
  function Subject(server: string, id: int): string {
    "matter_node:" + server + ":" + Decimal.Format(id)
  }

  /** Server ids are free text, yet the key gives both parts back. */
  lemma {:induction false} SubjectIsInjective(s: string, a: int, t: string, b: int)
    requires Subject(s, a) == Subject(t, b)
    ensures s == t && a == b
  {
    Decimal.FormatAvoids(a, ':');
    Decimal.FormatAvoids(b, ':');
    assert Subject(s, a) == ("matter_node:" + s) + [':'] + Decimal.Format(a);
    assert Subject(t, b) == ("matter_node:" + t) + [':'] + Decimal.Format(b);
    Decimal.JoinIsInjective("matter_node:" + s, Decimal.Format(a), "matter_node:" + t, Decimal.Format(b), ':');
    SamePrefix("matter_node:", s, t);
    Decimal.FormatIsInjective(a, b);
  }

  lemma SamePrefix(prefix: string, s: string, t: string)
    requires prefix + s == prefix + t
    ensures s == t
  {
    assert s == (prefix + s)[|prefix|..] && t == (prefix + t)[|prefix|..];
  }

  // ----- one node -----

  function Pick(new_: Option<string>, old_: Option<string>): Option<string> {
    if new_ != None then new_ else old_
  }

  function AvailableAfter(existing: Option<Node>, report: Report): bool {
    if report.available.Some? then report.available.value
    else existing.Some? && existing.value.available
  }

  /** The state `_process_node` builds. */
  function NodeAfter(existing: Option<Node>, report: Report, server: string, now: int): Node {
    Node(report.id, server, AvailableAfter(existing, report),
      if report.available == Some(false) then Some(now)
      else if existing.Some? then existing.value.lastUnavailable else None,
      now,
      Pick(report.product, if existing.Some? then existing.value.product else None),
      if existing.Some? then existing.value.learned else [])
  }

  function Decided(existing: Option<Node>, report: Report): seq<Event> {
    var up := AvailableAfter(existing, report);
    if existing.None? then [Seen(up)]
    else if report.available.Some? && existing.value.available != up then [if up then Up else Down]
    else []
  }

  // ----- steps -----

  /** `_process_node` up to its suspension: the transition is decided against the cached node. */
  function Decide(w: World, report: Report): World {
    w.(log := Record(w.log, report.id, Decided(Get(w.nodes, report.id), report)))
  }

  /** The rest of `_process_node`: `node` was built before the suspension. */
  function StoreReport(w: World, server: string, report: Report, node: Node): World {
    w.(nodes := w.nodes[report.id := node],
       attributeKeys := if report.attributes.Some? then w.attributeKeys[report.id := report.attributes.value]
           else w.attributeKeys,
       rows := w.rows[Subject(server, report.id) := node])
  }

  function PersistAll(w: World, server: string, copies: seq<Node>): World {
    if copies == [] then w
    else Persist(PersistAll(w, server, copies[..|copies| - 1]), server, copies[|copies| - 1])
  }

  /** `_process_node` with the probe writes that come during its suspension. */
  function Process(w: World, server: string, report: Report, now: int, meanwhile: seq<Node>): World {
    StoreReport(PersistAll(Decide(w, report), server, meanwhile), server, report,
      NodeAfter(Get(w.nodes, report.id), report, server, now))
  }

  function Remove(w: World, server: string, id: int): World {
    if id !in w.nodes then w else
    w.(nodes := w.nodes - {id}, attributeKeys := w.attributeKeys - {id}, rows := w.rows - {Subject(server, id)},
       log := Record(w.log, id, [Removed]))
  }

  function Persist(w: World, server: string, copy: Node): World {
    w.(nodes := w.nodes[copy.id := copy], rows := w.rows[Subject(server, copy.id) := copy])
  }

  function Connect(w: World): World {
    if w.connected then w else w.(connected := true, serverLog := w.serverLog + [true])
  }

  function Disconnect(w: World): World {
    if w.connected then w.(connected := false, serverLog := w.serverLog + [false]) else w
  }

  predicate OwnRow(rows: map<string, Node>, server: string, key: string) {
    key in rows && rows[key].serverId == server
  }

  function OwnIds(rows: map<string, Node>, server: string): set<int> {
    set key | key in rows && OwnRow(rows, server, key) :: rows[key].id
  }

  ghost predicate AllStored(rows: map<string, Node>, server: string, ids: set<int>) {
    forall id :: id in ids ==> Subject(server, id) in rows
  }

  /** `nodes` with the rows of `ids` on top. */
  ghost function Overlay(nodes: map<int, Node>, rows: map<string, Node>, server: string, ids: set<int>): map<int, Node>
    requires AllStored(rows, server, ids)
  {
    map id | id in nodes.Keys + ids :: if id in ids then rows[Subject(server, id)] else nodes[id]
  }

  lemma OwnRowsAreStored(rows: map<string, Node>, server: string)
    requires RowsKeyed(rows)
    ensures AllStored(rows, server, OwnIds(rows, server))
  {
    forall id | id in OwnIds(rows, server) ensures Subject(server, id) in rows {
      var key :| key in rows && OwnRow(rows, server, key) && rows[key].id == id;
    }
  }

  /** `_load_cache`: the stored rows of this server, on top of what is cached. */
  ghost function Load(w: World, server: string): World
    requires RowsKeyed(w.rows)
  {
    OwnRowsAreStored(w.rows, server);
    var ids := OwnIds(w.rows, server);
    w.(nodes := Overlay(w.nodes, w.rows, server, ids),
       log := map id | id in w.log.Keys + ids ::
         Of(w.log, id) + if id in ids && id !in w.nodes then [Loaded(w.rows[Subject(server, id)].available)] else [])
  }

  // ----- the cache and the rows -----

  ghost predicate RowsKeyed(rows: map<string, Node>) {
    forall key :: key in rows ==> key == Subject(rows[key].serverId, rows[key].id)
  }

  ghost predicate NodesKeyed(nodes: map<int, Node>, server: string) {
    forall id :: id in nodes ==> nodes[id].id == id && nodes[id].serverId == server
  }

  ghost predicate Stored(nodes: map<int, Node>, rows: map<string, Node>, server: string) {
    forall id :: id in nodes ==> Subject(server, id) in rows && rows[Subject(server, id)] == nodes[id]
  }

  ghost predicate Cached(nodes: map<int, Node>, rows: map<string, Node>, server: string) {
    forall key :: OwnRow(rows, server, key) ==> rows[key].id in nodes
  }

  /** The cache is exactly this server's rows. */
  ghost predicate Mirrors(w: World, server: string) {
    && RowsKeyed(w.rows) && NodesKeyed(w.nodes, server)
    && Stored(w.nodes, w.rows, server) && Cached(w.nodes, w.rows, server)
    && w.attributeKeys.Keys <= w.nodes.Keys
  }

  /** The rows of every other server. */
  function Others(rows: map<string, Node>, server: string): map<string, Node> {
    map key | key in rows && rows[key].serverId != server :: rows[key]
  }

  lemma SubjectsDiffer(server: string, id: int)
    ensures forall other: int :: other != id ==> Subject(server, other) != Subject(server, id)
  {
    forall other: int | other != id ensures Subject(server, other) != Subject(server, id) {
      if Subject(server, other) == Subject(server, id) {
        SubjectIsInjective(server, other, server, id);
      }
    }
  }

  lemma WriteMirrors(nodes: map<int, Node>, rows: map<string, Node>, server: string, node: Node)
    requires RowsKeyed(rows) && NodesKeyed(nodes, server) && Stored(nodes, rows, server) && Cached(nodes, rows, server)
    requires node.serverId == server
    ensures var (n, r) := (nodes[node.id := node], rows[Subject(server, node.id) := node]);
            RowsKeyed(r) && NodesKeyed(n, server) && Stored(n, r, server) && Cached(n, r, server)
    ensures Others(rows[Subject(server, node.id) := node], server) == Others(rows, server)
  {
    var key := Subject(server, node.id);
    SubjectsDiffer(server, node.id);
    if key in rows {
      SubjectIsInjective(rows[key].serverId, rows[key].id, server, node.id);
    }
  }

  lemma RemoveMirrors(nodes: map<int, Node>, rows: map<string, Node>, server: string, id: int)
    requires RowsKeyed(rows) && NodesKeyed(nodes, server) && Stored(nodes, rows, server) && Cached(nodes, rows, server)
    requires id in nodes
    ensures var (n, r) := (nodes - {id}, rows - {Subject(server, id)});
            RowsKeyed(r) && NodesKeyed(n, server) && Stored(n, r, server) && Cached(n, r, server)
    ensures Others(rows - {Subject(server, id)}, server) == Others(rows, server)
  {
    SubjectsDiffer(server, id);
    assert rows[Subject(server, id)] == nodes[id];
    forall key | OwnRow(rows - {Subject(server, id)}, server, key) ensures rows[key].id in nodes - {id} {
      assert OwnRow(rows, server, key);
      assert key == Subject(server, rows[key].id);
    }
  }

  lemma OwnIdsAreCached(w: World, server: string)
    requires Mirrors(w, server)
    ensures OwnIds(w.rows, server) == w.nodes.Keys
  {
    forall id | id in w.nodes ensures id in OwnIds(w.rows, server) {
      assert OwnRow(w.rows, server, Subject(server, id));
    }
    forall id | id in OwnIds(w.rows, server) ensures id in w.nodes {
      var key :| key in w.rows && OwnRow(w.rows, server, key) && w.rows[key].id == id;
    }
  }

  lemma OverlayOfMirror(nodes: map<int, Node>, rows: map<string, Node>, server: string)
    requires Stored(nodes, rows, server)
    ensures AllStored(rows, server, nodes.Keys) && Overlay(nodes, rows, server, nodes.Keys) == nodes
  {
  }

  /** Loading again finds what is already cached. */
  lemma LoadingAgain(w: World, server: string)
    requires Mirrors(w, server)
    ensures Load(w, server).nodes == w.nodes && Load(w, server).rows == w.rows
    ensures forall id :: Of(Load(w, server).log, id) == Of(w.log, id)
  {
    OwnIdsAreCached(w, server);
    OverlayOfMirror(w.nodes, w.rows, server);
    forall id ensures Of(Load(w, server).log, id) == Of(w.log, id) {
      assert Of(w.log, id) + [] == Of(w.log, id);
    }
  }

  // ----- runs -----

  ghost function Apply(w: World, server: string, step: Step): World
    requires Mirrors(w, server)
  {
    match step
    case Reported(report, now, meanwhile) => Process(w, server, report, now, meanwhile)
    case GivenUp(report, meanwhile) => PersistAll(Decide(w, report), server, meanwhile)
    case NodeRemoved(id) => Remove(w, server, id)
    case Persisted(copy) => Persist(w, server, copy)
    case Connected => Connect(w)
    case Disconnected => Disconnect(w)
    case Restarted => Load(w, server)
  }

  ghost predicate Owned(copies: seq<Node>, server: string) {
    forall i :: 0 <= i < |copies| ==> copies[i].serverId == server
  }

  /** A probe run writes copies of nodes it read from this observer's cache. */
  ghost predicate OwnCopies(steps: seq<Step>, server: string) {
    forall i :: 0 <= i < |steps| ==> Owned(steps[i].Copies(), server)
  }

  lemma {:induction false} WritesMirror(w: World, server: string, copies: seq<Node>)
    requires Mirrors(w, server) && Owned(copies, server)
    ensures var r := PersistAll(w, server, copies);
            && Mirrors(r, server) && Others(r.rows, server) == Others(w.rows, server)
            && r.log == w.log && r.connected == w.connected && r.serverLog == w.serverLog
    decreases |copies|
  {
    if copies != [] {
      var n := |copies| - 1;
      var before := PersistAll(w, server, copies[..n]);
      WritesMirror(w, server, copies[..n]);
      WriteMirrors(before.nodes, before.rows, server, copies[n]);
    }
  }

  lemma StoreMirrors(w: World, server: string, report: Report, node: Node)
    requires Mirrors(w, server) && node.id == report.id && node.serverId == server
    ensures var r := StoreReport(w, server, report, node);
            Mirrors(r, server) && Others(r.rows, server) == Others(w.rows, server)
  {
    WriteMirrors(w.nodes, w.rows, server, node);
  }

  lemma ReportMirrors(w: World, server: string, report: Report, now: int, meanwhile: seq<Node>)
    requires Mirrors(w, server) && Owned(meanwhile, server)
    ensures var r := Process(w, server, report, now, meanwhile);
            Mirrors(r, server) && Others(r.rows, server) == Others(w.rows, server)
  {
    WritesMirror(Decide(w, report), server, meanwhile);
    StoreMirrors(PersistAll(Decide(w, report), server, meanwhile), server, report,
      NodeAfter(Get(w.nodes, report.id), report, server, now));
  }

  lemma StepMirrors(w: World, server: string, step: Step)
    requires Mirrors(w, server) && Owned(step.Copies(), server)
    ensures Mirrors(Apply(w, server, step), server)
    ensures Others(Apply(w, server, step).rows, server) == Others(w.rows, server)
  {
    match step
    case Reported(report, now, meanwhile) => ReportMirrors(w, server, report, now, meanwhile);
    case GivenUp(report, meanwhile) => WritesMirror(Decide(w, report), server, meanwhile);
    case NodeRemoved(id) =>
      if id in w.nodes {
        RemoveMirrors(w.nodes, w.rows, server, id);
      }
    case Persisted(copy) =>
      assert copy == step.Copies()[0];
      WriteMirrors(w.nodes, w.rows, server, copy);
    case Restarted =>
      LoadingAgain(w, server);
    case _ =>
  }

  ghost function Run(w: World, server: string, steps: seq<Step>): (r: World)
    requires Mirrors(w, server) && OwnCopies(steps, server)
    ensures Mirrors(r, server)
    decreases |steps|
  {
    if steps == [] then w else
    var n := |steps| - 1;
    var before := Run(w, server, steps[..n]);
    StepMirrors(before, server, steps[n]);
    Apply(before, server, steps[n])
  }

  /**
   After every sequence of reports, stored or given up, removals, probe writes, reconnects and
   restarts, the cached node ids are the ids of this server's stored rows, each row holds the cached node, and no other
   server's row has changed.
   */
  lemma {:induction false} CacheMirrorsRows(w: World, server: string, steps: seq<Step>)
    requires Mirrors(w, server) && OwnCopies(steps, server)
    ensures var r := Run(w, server, steps);
            && OwnIds(r.rows, server) == r.nodes.Keys
            && (forall id :: id in r.nodes ==> Get(r.rows, Subject(server, id)) == Some(r.nodes[id]))
            && Others(r.rows, server) == Others(w.rows, server)
    decreases |steps|
  {
    OwnIdsAreCached(Run(w, server, steps), server);
    if steps != [] {
      var n := |steps| - 1;
      CacheMirrorsRows(w, server, steps[..n]);
      StepMirrors(Run(w, server, steps[..n]), server, steps[n]);
    }
  }

  // ----- histories -----

  /** Whether the node is known after `events`, and then whether it is available. */
  function StatusOf(events: seq<Event>): Option<bool> {
    if events == [] then None else
    match events[|events| - 1]
    case Loaded(up) => Some(up)
    case Seen(up) => Some(up)
    case Down => Some(false)
    case Up => Some(true)
    case Removed => None
  }

  predicate Legal(event: Event, status: Option<bool>) {
    match event
    case Loaded(_) => status == None
    case Seen(_) => status == None
    case Down => status == Some(true)
    case Up => status == Some(false)
    case Removed => status != None
  }

  /**
   Every entry was possible when it was made: a lifetime starts with "seen", ends with "removed",
   and in between "unavailable" is decided only for an available node, "recovered" only for an
   unavailable one.
   */
  predicate LegalHistory(events: seq<Event>) {
    forall i :: 0 <= i < |events| ==> Legal(events[i], StatusOf(events[..i]))
  }

  predicate IsChange(e: Event) {
    e.Down? || e.Up?
  }

  /** Within one lifetime, "unavailable" and "recovered" alternate. */
  lemma {:induction false} ChangesAlternate(events: seq<Event>, i: nat, j: nat)
    requires LegalHistory(events) && i < j < |events| && j == i + 1
    requires IsChange(events[i]) && IsChange(events[j])
    ensures events[i] != events[j]
  {
    assert Legal(events[j], StatusOf(events[..j]));
    assert events[..j][|events[..j]| - 1] == events[i];
  }

  function AvailabilityOf(nodes: map<int, Node>, id: int): Option<bool> {
    if id in nodes then Some(nodes[id].available) else None
  }

  /** Each node's history is legal, and the cache says what its latest entry says. */
  ghost predicate Agrees(w: World) {
    forall id :: NodeAgrees(w.nodes, w.log, id)
  }

  /** One node's history and cache entry agree. */
  predicate NodeAgrees(nodes: map<int, Node>, log: Transitions, id: int) {
    LegalHistory(Of(log, id)) && StatusOf(Of(log, id)) == AvailabilityOf(nodes, id)
  }

  lemma LegalAppend(events: seq<Event>, e: Event)
    requires LegalHistory(events) && Legal(e, StatusOf(events))
    ensures LegalHistory(events + [e])
  {
    var all := events + [e];
    forall i | 0 <= i < |all| ensures Legal(all[i], StatusOf(all[..i])) {
      if i < |events| {
        assert all[..i] == events[..i];
        assert Legal(events[i], StatusOf(events[..i]));
      } else {
        assert all[..i] == events;
      }
    }
  }

  lemma DecisionIsLegal(history: seq<Event>, existing: Option<Node>, report: Report)
    requires LegalHistory(history)
    requires StatusOf(history) == if existing.Some? then Some(existing.value.available) else None
    ensures LegalHistory(history + Decided(existing, report))
    ensures StatusOf(history + Decided(existing, report)) == Some(AvailableAfter(existing, report))
  {
    var decided := Decided(existing, report);
    if decided == [] {
      assert history + decided == history;
    } else {
      LegalAppend(history, decided[0]);
      assert history + decided == history + [decided[0]];
    }
  }

  lemma RemoveAgrees(w: World, server: string, id: int)
    requires Agrees(w)
    ensures Agrees(Remove(w, server, id))
  {
    if id in w.nodes {
      assert NodeAgrees(w.nodes, w.log, id);
      LegalAppend(Of(w.log, id), Removed);
      forall other | other != id ensures NodeAgrees(w.nodes - {id}, Record(w.log, id, [Removed]), other) {
        assert NodeAgrees(w.nodes, w.log, other);
      }
    }
  }

  /** The copy still says what the cache says about availability. */
  predicate Fresh(w: World, copy: Node) {
    AvailabilityOf(w.nodes, copy.id) == Some(copy.available)
  }

  /** A probe write keeps cache and history in agreement exactly when its copy is fresh. */
  lemma {:induction false} PersistAgreesIff(w: World, server: string, copy: Node)
    requires Agrees(w)
    ensures Agrees(Persist(w, server, copy)) <==> Fresh(w, copy)
  {
    var after := Persist(w, server, copy);
    assert NodeAgrees(w.nodes, w.log, copy.id);
    assert AvailabilityOf(after.nodes, copy.id) == Some(copy.available);
    if Agrees(after) {
      assert NodeAgrees(after.nodes, after.log, copy.id);
    }
    if Fresh(w, copy) {
      forall id ensures NodeAgrees(after.nodes, after.log, id) {
        assert NodeAgrees(w.nodes, w.log, id);
      }
    }
  }

  lemma {:induction false} WritesKeepLog(w: World, server: string, copies: seq<Node>)
    ensures PersistAll(w, server, copies).log == w.log
    decreases |copies|
  {
    if copies != [] {
      WritesKeepLog(w, server, copies[..|copies| - 1]);
    }
  }

  lemma {:induction false} WritesIgnoreLog(v: World, w: World, server: string, copies: seq<Node>)
    requires v.nodes == w.nodes
    ensures PersistAll(v, server, copies).nodes == PersistAll(w, server, copies).nodes
    decreases |copies|
  {
    if copies != [] {
      WritesIgnoreLog(v, w, server, copies[..|copies| - 1]);
    }
  }

  /** Together the writes leave the availability of every node but one as it was. */
  ghost predicate FreshBeside(w: World, server: string, id: int, copies: seq<Node>) {
    forall other :: other != id ==>
      AvailabilityOf(PersistAll(w, server, copies).nodes, other) == AvailabilityOf(w.nodes, other)
  }

  /** The reported node's own history and cache entry agree whatever was written meanwhile. */
  lemma ReportedAgrees(w: World, server: string, report: Report, now: int, meanwhile: seq<Node>)
    requires Agrees(w)
    ensures var r := Process(w, server, report, now, meanwhile); NodeAgrees(r.nodes, r.log, report.id)
    ensures Process(w, server, report, now, meanwhile).log == Decide(w, report).log
  {
    WritesKeepLog(Decide(w, report), server, meanwhile);
    assert NodeAgrees(w.nodes, w.log, report.id);
    DecisionIsLegal(Of(w.log, report.id), Get(w.nodes, report.id), report);
  }

  lemma OtherAgreesIff(w: World, server: string, report: Report, now: int, meanwhile: seq<Node>, other: int)
    requires Agrees(w) && other != report.id
    ensures var r := Process(w, server, report, now, meanwhile);
            NodeAgrees(r.nodes, r.log, other) <==>
              AvailabilityOf(PersistAll(w, server, meanwhile).nodes, other) == AvailabilityOf(w.nodes, other)
  {
    WritesKeepLog(Decide(w, report), server, meanwhile);
    WritesIgnoreLog(Decide(w, report), w, server, meanwhile);
    assert NodeAgrees(w.nodes, w.log, other);
  }

  /** A report keeps agreement exactly when the writes during its suspension are fresh for the other nodes. */
  lemma ReportAgreesIff(w: World, server: string, report: Report, now: int, meanwhile: seq<Node>)
    requires Agrees(w)
    ensures Agrees(Process(w, server, report, now, meanwhile)) <==> FreshBeside(w, server, report.id, meanwhile)
  {
    var r := Process(w, server, report, now, meanwhile);
    ReportedAgrees(w, server, report, now, meanwhile);
    forall other | other != report.id
      ensures NodeAgrees(r.nodes, r.log, other) <==>
                AvailabilityOf(PersistAll(w, server, meanwhile).nodes, other) == AvailabilityOf(w.nodes, other)
    {
      OtherAgreesIff(w, server, report, now, meanwhile, other);
    }
  }

  /** After the writes, the cache says of the reported node what the report said. */
  ghost predicate CachedAsReported(w: World, server: string, report: Report, meanwhile: seq<Node>) {
    AvailabilityOf(PersistAll(w, server, meanwhile).nodes, report.id)
      == Some(AvailableAfter(Get(w.nodes, report.id), report))
  }

  /** A report that is given up keeps agreement exactly when the cache ends up as it would have been stored. */
  lemma GivenUpAgreesIff(w: World, server: string, report: Report, meanwhile: seq<Node>)
    requires Agrees(w)
    ensures Agrees(PersistAll(Decide(w, report), server, meanwhile))
            <==> (FreshBeside(w, server, report.id, meanwhile) && CachedAsReported(w, server, report, meanwhile))
  {
    var r := PersistAll(Decide(w, report), server, meanwhile);
    WritesKeepLog(Decide(w, report), server, meanwhile);
    WritesIgnoreLog(Decide(w, report), w, server, meanwhile);
    assert NodeAgrees(w.nodes, w.log, report.id);
    DecisionIsLegal(Of(w.log, report.id), Get(w.nodes, report.id), report);
    assert NodeAgrees(r.nodes, r.log, report.id) <==> CachedAsReported(w, server, report, meanwhile);
    forall other | other != report.id
      ensures NodeAgrees(r.nodes, r.log, other) <==>
                AvailabilityOf(PersistAll(w, server, meanwhile).nodes, other) == AvailabilityOf(w.nodes, other)
    {
      assert NodeAgrees(w.nodes, w.log, other);
    }
  }

  /** Without a write, it keeps agreement exactly when it decided nothing. */
  lemma {:induction false} QuietReportsMayBeGivenUp(w: World, server: string, report: Report)
    requires Agrees(w)
    ensures Agrees(PersistAll(Decide(w, report), server, [])) <==> Decided(Get(w.nodes, report.id), report) == []
  {
    GivenUpAgreesIff(w, server, report, []);
  }

  /**
   What the step writes leaves the availability of the nodes as the histories have it: the probe
   writes are fresh, and a report that is given up leaves nothing unstored.
   */
  ghost predicate FreshStep(w: World, server: string, step: Step) {
    match step
    case Reported(report, _, meanwhile) => FreshBeside(w, server, report.id, meanwhile)
    case GivenUp(report, meanwhile) =>
      FreshBeside(w, server, report.id, meanwhile) && CachedAsReported(w, server, report, meanwhile)
    case Persisted(copy) => Fresh(w, copy)
    case _ => true
  }

  lemma StepAgreesIff(w: World, server: string, step: Step)
    requires Mirrors(w, server) && Agrees(w)
    ensures Agrees(Apply(w, server, step)) <==> FreshStep(w, server, step)
  {
    match step
    case Reported(report, now, meanwhile) => ReportAgreesIff(w, server, report, now, meanwhile);
    case GivenUp(report, meanwhile) => GivenUpAgreesIff(w, server, report, meanwhile);
    case NodeRemoved(id) => RemoveAgrees(w, server, id);
    case Persisted(copy) => PersistAgreesIff(w, server, copy);
    case Restarted =>
      LoadingAgain(w, server);
      forall id ensures NodeAgrees(w.nodes, Load(w, server).log, id) {
        assert NodeAgrees(w.nodes, w.log, id);
      }
    case _ =>
      forall id ensures NodeAgrees(Apply(w, server, step).nodes, Apply(w, server, step).log, id) {
        assert NodeAgrees(w.nodes, w.log, id);
      }
  }

  lemma RunStep(w: World, server: string, steps: seq<Step>, i: nat)
    requires Mirrors(w, server) && OwnCopies(steps, server) && i < |steps|
    ensures Run(w, server, steps[..i + 1]) == Apply(Run(w, server, steps[..i]), server, steps[i])
  {
    assert steps[..i + 1][..i] == steps[..i];
  }

  ghost predicate AgreesAfter(w: World, server: string, steps: seq<Step>, n: nat)
    requires Mirrors(w, server) && OwnCopies(steps, server) && n <= |steps|
  {
    Agrees(Run(w, server, steps[..n]))
  }

  ghost predicate FreshAt(w: World, server: string, steps: seq<Step>, n: nat)
    requires Mirrors(w, server) && OwnCopies(steps, server) && n < |steps|
  {
    FreshStep(Run(w, server, steps[..n]), server, steps[n])
  }

  lemma NextAgreesIff(w: World, server: string, steps: seq<Step>, n: nat)
    requires Mirrors(w, server) && OwnCopies(steps, server) && n < |steps| && AgreesAfter(w, server, steps, n)
    ensures AgreesAfter(w, server, steps, n + 1) <==> FreshAt(w, server, steps, n)
  {
    RunStep(w, server, steps, n);
    StepAgreesIff(Run(w, server, steps[..n]), server, steps[n]);
  }

  lemma {:induction false} FreshKeepsAgreement(w: World, server: string, steps: seq<Step>, n: nat)
    requires Mirrors(w, server) && OwnCopies(steps, server) && n <= |steps| && Agrees(w)
    requires forall i :: 0 <= i < n ==> FreshAt(w, server, steps, i)
    ensures AgreesAfter(w, server, steps, n)
    decreases n
  {
    if n == 0 {
      assert steps[..0] == [];
    } else {
      FreshKeepsAgreement(w, server, steps, n - 1);
      NextAgreesIff(w, server, steps, n - 1);
    }
  }

  /**
   In every run: every node's history is legal and the cache matches its latest entry after each
   step, if and only if no probe write of the run changes the availability of a node and no report
   that changes it is given up.
   */
  lemma {:induction false} HistoriesAgree(w: World, server: string, steps: seq<Step>)
    requires Mirrors(w, server) && OwnCopies(steps, server) && Agrees(w)
    ensures (forall i :: 0 <= i <= |steps| ==> AgreesAfter(w, server, steps, i))
            <==> (forall i :: 0 <= i < |steps| ==> FreshAt(w, server, steps, i))
  {
    if forall i :: 0 <= i < |steps| ==> FreshAt(w, server, steps, i) {
      forall i | 0 <= i <= |steps| ensures AgreesAfter(w, server, steps, i) {
        FreshKeepsAgreement(w, server, steps, i);
      }
    }
    if forall i :: 0 <= i <= |steps| ==> AgreesAfter(w, server, steps, i) {
      forall i | 0 <= i < |steps| ensures FreshAt(w, server, steps, i) {
        NextAgreesIff(w, server, steps, i);
      }
    }
  }

  // ----- the connection -----

  /** Starts with "connected" and alternates. */
  predicate Alternating(log: seq<bool>) {
    forall i :: 0 <= i < |log| ==> log[i] == (i % 2 == 0)
  }

  predicate ConnectionAgrees(w: World) {
    Alternating(w.serverLog) && w.connected == (|w.serverLog| % 2 == 1)
  }

  lemma StepKeepsConnection(w: World, server: string, step: Step)
    requires Mirrors(w, server) && ConnectionAgrees(w) && Owned(step.Copies(), server)
    ensures ConnectionAgrees(Apply(w, server, step))
  {
    match step
    case Connected =>
    case Disconnected =>
    case Reported(report, now, meanwhile) => WritesMirror(Decide(w, report), server, meanwhile);
    case GivenUp(report, meanwhile) => WritesMirror(Decide(w, report), server, meanwhile);
    case _ =>
  }

  /** Connected and disconnected alternate in every run, and the flag tells which came last. */
  lemma {:induction false} ConnectionAlternates(w: World, server: string, steps: seq<Step>)
    requires Mirrors(w, server) && OwnCopies(steps, server) && ConnectionAgrees(w)
    ensures ConnectionAgrees(Run(w, server, steps))
    decreases |steps|
  {
    if steps != [] {
      var n := |steps| - 1;
      ConnectionAlternates(w, server, steps[..n]);
      StepKeepsConnection(Run(w, server, steps[..n]), server, steps[n]);
    }
  }

  // ----- what reports leave alone -----

  predicate Knows(w: World, id: int, path: string) {
    id in w.nodes && path in w.nodes[id].learned
  }

  predicate AllKnow(copies: seq<Node>, id: int, path: string) {
    forall i :: 0 <= i < |copies| && copies[i].id == id ==> path in copies[i].learned
  }

  /**
   The step is neither the node's removal nor a write of a copy of it without the path. What is
   written while a report of the node itself is suspended does not matter if that report is stored.
   */
  predicate Spares(step: Step, id: int, path: string) {
    match step
    case NodeRemoved(other) => other != id
    case Reported(report, _, meanwhile) => report.id == id || AllKnow(meanwhile, id, path)
    case GivenUp(_, meanwhile) => AllKnow(meanwhile, id, path)
    case Persisted(copy) => copy.id == id ==> path in copy.learned
    case _ => true
  }

  lemma {:induction false} WritesSpare(w: World, server: string, copies: seq<Node>, id: int, path: string)
    requires Knows(w, id, path) && AllKnow(copies, id, path)
    ensures Knows(PersistAll(w, server, copies), id, path)
    decreases |copies|
  {
    if copies != [] {
      WritesSpare(w, server, copies[..|copies| - 1], id, path);
    }
  }

  lemma StepSpares(w: World, server: string, step: Step, id: int, path: string)
    requires Mirrors(w, server) && Knows(w, id, path) && Spares(step, id, path)
    ensures Knows(Apply(w, server, step), id, path)
  {
    match step
    case Reported(report, now, meanwhile) =>
      if report.id != id {
        WritesSpare(Decide(w, report), server, meanwhile, id, path);
      }
    case GivenUp(report, meanwhile) => WritesSpare(Decide(w, report), server, meanwhile, id, path);
    case Restarted => LoadingAgain(w, server);
    case _ =>
  }

  /**
   A path learned about a node stays stored through every run without the node's removal and
   without a write of a copy of it that lacks the path.
   */
  lemma {:induction false} LearnedSurvives(w: World, server: string, steps: seq<Step>, id: int, path: string)
    requires Mirrors(w, server) && OwnCopies(steps, server) && Knows(w, id, path)
    requires forall i :: 0 <= i < |steps| ==> Spares(steps[i], id, path)
    ensures Knows(Run(w, server, steps), id, path)
    decreases |steps|
  {
    if steps != [] {
      var n := |steps| - 1;
      LearnedSurvives(w, server, steps[..n], id, path);
      StepSpares(Run(w, server, steps[..n]), server, steps[n], id, path);
    }
  }

  lemma {:induction false} OnlyOneNode(w: World, server: string, copies: seq<Node>, id: int, node: Node)
    requires forall i :: 0 <= i < |copies| ==> copies[i].id == id
    ensures var r := PersistAll(w, server, copies);
            && r.nodes[id := node] == w.nodes[id := node]
            && r.rows[Subject(server, id) := node] == w.rows[Subject(server, id) := node]
            && r == w.(nodes := r.nodes, rows := r.rows)
    decreases |copies|
  {
    if copies != [] {
      OnlyOneNode(w, server, copies[..|copies| - 1], id, node);
    }
  }

  /**
   A probe write that comes while a report of the same node is suspended leaves no trace: whatever
   it learned is overwritten by what was known before the report.
   */
  lemma {:induction false} WriteDuringReportIsLost(w: World, server: string, report: Report, now: int,
      meanwhile: seq<Node>)
    requires forall i :: 0 <= i < |meanwhile| ==> meanwhile[i].id == report.id
    ensures Process(w, server, report, now, meanwhile) == Process(w, server, report, now, [])
    ensures report.id in w.nodes ==>
              Process(w, server, report, now, meanwhile).nodes[report.id].learned == w.nodes[report.id].learned
  {
    OnlyOneNode(Decide(w, report), server, meanwhile, report.id,
        NodeAfter(Get(w.nodes, report.id), report, server, now));
  }

  /**
   `last_unavailable` is the time of the latest report saying "unavailable", not of the transition:
   a repeated report restarts the clock without recording anything.
   */
  lemma {:induction false} RepeatedReportRestartsTheClock(w: World, server: string, report: Report, now: int)
    requires report.id in w.nodes && !w.nodes[report.id].available && report.available == Some(false)
    ensures var r := Process(w, server, report, now, []);
            r.nodes[report.id].lastUnavailable == Some(now) && Of(r.log, report.id) == Of(w.log, report.id)
  {
    assert Of(w.log, report.id) + [] == Of(w.log, report.id);
  }

  /**
   A copy taken before a node went down and written after it came to be down makes the next report
   decide "unavailable" a second time in a row.
   */
  lemma {:induction false} StaleWriteRepeatsATransition(w: World, server: string, id: int, report: Report, now: int)
    requires Mirrors(w, server) && Agrees(w) && id in w.nodes && w.nodes[id].available
    requires report.id == id && report.available == Some(false)
    ensures var copy := w.nodes[id];
            var down := Process(w, server, report, now, []);
            var again := Process(Persist(down, server, copy), server, report, now, []);
            Of(again.log, id) == Of(w.log, id) + [Down, Down]
  {
    assert Of(w.log, id) + [Down] + [Down] == Of(w.log, id) + [Down, Down];
  }

  /**
   A report that is given up after its decision decides the same once more when it comes again,
   after a restart as well: a node can so be "unavailable", "recovered" or "seen" twice in a row.
   */
  lemma {:induction false} GivenUpRepeatsATransition(w: World, server: string, report: Report, now: int)
    requires Mirrors(w, server)
    ensures var decided := Decided(Get(w.nodes, report.id), report);
            var lost := Apply(w, server, GivenUp(report, []));
            && Mirrors(lost, server)
            && Of(Process(lost, server, report, now, []).log, report.id) == Of(w.log, report.id) + decided + decided
            && Of(Process(Load(lost, server), server, report, now, []).log, report.id)
                 == Of(w.log, report.id) + decided + decided
  {
    var lost := Apply(w, server, GivenUp(report, []));
    StepMirrors(w, server, GivenUp(report, []));
    LoadingAgain(lost, server);
  }

  // ----- the observer -----

  class Observer {
    const server: string
    var nodes: map<int, Node>
    var attributeKeys: map<int, set<string>>
    var rows: map<string, Node>
    var connected: bool
    ghost var log: Transitions
    ghost var serverLog: seq<bool>

    ghost function Snapshot(): World
      reads this
    {
      World(nodes, attributeKeys, rows, connected, log, serverLog)
    }

    ghost predicate Valid()
      reads this
    {
      Mirrors(Snapshot(), server)
    }

    constructor (server: string, rows: map<string, Node>)
      ensures this.server == server && Snapshot() == World(map[], map[], rows, false, map[], [])
    {
      this.server := server;
      this.rows := rows;
      nodes, attributeKeys, connected := map[], map[], false;
      log, serverLog := map[], [];
    }

    /** `_load_cache`. */
    method LoadCache()
      requires RowsKeyed(rows)
      modifies this
      ensures Snapshot() == Load(old(Snapshot()), server)
    {
      log := Load(Snapshot(), server).log;
      nodes := LoadRows(nodes, rows, server);
    }

    /** `_process_node` up to its suspension; `None` is a payload without a usable node id. */
    method DecideNode(report: Option<Report>, now: int) returns (state: Option<Node>)
      requires Valid()
      modifies this`log
      ensures Valid() && (state.None? <==> report.None?)
      ensures report.None? ==> Snapshot() == old(Snapshot())
      ensures report.Some? ==>
                && Snapshot() == Decide(old(Snapshot()), report.value)
                && state == Some(NodeAfter(Get(old(nodes), report.value.id), report.value, server, now))
    {
      if report == None {
        return None;
      }
      var parsed := report.value;
      var built, decided := BuildNode(Get(nodes, parsed.id), parsed, server, now);
      log := Record(log, parsed.id, decided);
      state := Some(built);
    }

    /** The rest of `_process_node`, after other tasks may have run. */
    method StoreNode(report: Report, state: Node)
      requires Valid() && state.id == report.id && state.serverId == server
      modifies this
      ensures Valid() && Snapshot() == StoreReport(old(Snapshot()), server, report, state)
    {
      StoreMirrors(Snapshot(), server, report, state);
      if report.attributes != None {
        attributeKeys := attributeKeys[report.id := report.attributes.value];
      }
      nodes := nodes[report.id := state];
      rows := rows[Subject(server, report.id) := state];
    }

    /** One report from decision to storage, with the probe writes that come in between. */
    method ProcessNode(report: Report, now: int, meanwhile: seq<Node>)
      requires Valid() && Owned(meanwhile, server)
      modifies this
      ensures Valid() && Snapshot() == Process(old(Snapshot()), server, report, now, meanwhile)
    {
      ghost var before := Snapshot();
      var state := DecideNode(Some(report), now);
      for i := 0 to |meanwhile|
        invariant Valid() && Snapshot() == PersistAll(Decide(before, report), server, meanwhile[..i])
      {
        assert meanwhile[..i + 1][..i] == meanwhile[..i];
        PersistNodeState(meanwhile[i]);
      }
      assert meanwhile[..|meanwhile|] == meanwhile;
      StoreNode(report, state.value);
    }

    /** `_process_node_removed`; `None` is a payload without a node id. */
    method ProcessNodeRemoved(id: Option<int>)
      requires Valid()
      modifies this
      ensures Valid()
      ensures Snapshot() == if id.None? then old(Snapshot()) else Remove(old(Snapshot()), server, id.value)
    {
      if id == None || id.value !in nodes {
        return;
      }
      StepMirrors(Snapshot(), server, NodeRemoved(id.value));
      nodes := nodes - {id.value};
      attributeKeys := attributeKeys - {id.value};
      rows := rows - {Subject(server, id.value)};
      log := Record(log, id.value, [Removed]);
    }

    /** `_persist_node_state`, as a probe run calls it. */
    method PersistNodeState(node: Node)
      requires Valid() && node.serverId == server
      modifies this
      ensures Valid() && Snapshot() == Persist(old(Snapshot()), server, node)
    {
      WriteMirrors(nodes, rows, server, node);
      nodes := nodes[node.id := node];
      rows := rows[Subject(server, node.id) := node];
    }

    /** `_on_connected`. */
    method OnConnected()
      requires Valid()
      modifies this
      ensures Valid() && Snapshot() == Connect(old(Snapshot()))
    {
      if !connected {
        connected := true;
        serverLog := serverLog + [true];
      }
    }

    /** `_on_disconnected`. */
    method OnDisconnected()
      requires Valid()
      modifies this
      ensures Valid() && Snapshot() == Disconnect(old(Snapshot()))
    {
      if connected {
        connected := false;
        serverLog := serverLog + [false];
      }
    }
  }

  /** The state and the transition that one payload leads to. */
  method BuildNode(existing: Option<Node>, parsed: Report, server: string, now: int)
    returns (state: Node, decided: seq<Event>)
    ensures state == NodeAfter(existing, parsed, server, now) && decided == Decided(existing, parsed)
  {
    var available := false;
    if parsed.available != None {
      available := parsed.available.value;
    } else if existing != None {
      available := existing.value.available;
    }
    var lastUnavailable := if existing != None then existing.value.lastUnavailable else None;
    if parsed.available == Some(false) {
      lastUnavailable := Some(now);
    }
    decided := [];
    if existing == None {
      decided := [Seen(available)];
    } else if parsed.available != None && existing.value.available != available {
      decided := [if available then Up else Down];
    }
    var product := Pick(parsed.product, if existing != None then existing.value.product else None);
    var learned := if existing != None then existing.value.learned else [];
    state := Node(parsed.id, server, available, lastUnavailable, now, product, learned);
  }

  lemma LoadOne(rows: map<string, Node>, todo: set<string>, server: string, key: string)
    requires RowsKeyed(rows) && key in todo && todo <= rows.Keys
    ensures OwnIds(rows - (todo - {key}), server) ==
              OwnIds(rows - todo, server) + if rows[key].serverId == server then {rows[key].id} else {}
    ensures key == Subject(rows[key].serverId, rows[key].id)
  {
    var less, more := rows - todo, rows - (todo - {key});
    forall id | id in OwnIds(less, server) ensures id in OwnIds(more, server) {
      var k :| k in less && OwnRow(less, server, k) && less[k].id == id;
      assert OwnRow(more, server, k);
    }
    assert rows[key].serverId == server ==> OwnRow(more, server, key);
    forall id | id in OwnIds(more, server) && id !in OwnIds(less, server)
      ensures rows[key].serverId == server && id == rows[key].id
    {
      var k :| k in more && OwnRow(more, server, k) && more[k].id == id;
      assert k != key ==> OwnRow(less, server, k);
    }
  }

  /** The cache once every row outside `todo` has been taken up. */
  ghost function Taken(cached: map<int, Node>, rows: map<string, Node>, todo: set<string>, server: string)
    : map<int, Node>
    requires RowsKeyed(rows)
  {
    OwnRowsAreStored(rows - todo, server);
    Overlay(cached, rows, server, OwnIds(rows - todo, server))
  }

  lemma TakenNone(cached: map<int, Node>, rows: map<string, Node>, server: string)
    requires RowsKeyed(rows)
    ensures Taken(cached, rows, rows.Keys, server) == cached
  {
    assert OwnIds(rows - rows.Keys, server) == {};
  }

  lemma TakenAll(cached: map<int, Node>, rows: map<string, Node>, server: string)
    requires RowsKeyed(rows)
    ensures AllStored(rows, server, OwnIds(rows, server))
    ensures Taken(cached, rows, {}, server) == Overlay(cached, rows, server, OwnIds(rows, server))
  {
    OwnRowsAreStored(rows, server);
    assert rows - {} == rows;
  }

  lemma TakenOneMore(cached: map<int, Node>, rows: map<string, Node>, todo: set<string>, server: string, key: string)
    requires RowsKeyed(rows) && key in todo && todo <= rows.Keys
    ensures Taken(cached, rows, todo - {key}, server) ==
              if rows[key].serverId == server then Taken(cached, rows, todo, server)[rows[key].id := rows[key]]
              else Taken(cached, rows, todo, server)
  {
    LoadOne(rows, todo, server, key);
  }

  /** One pass over the stored rows, in any order. */
  method LoadRows(cached: map<int, Node>, rows: map<string, Node>, server: string) returns (nodes: map<int, Node>)
    requires RowsKeyed(rows)
    ensures AllStored(rows, server, OwnIds(rows, server))
    ensures nodes == Overlay(cached, rows, server, OwnIds(rows, server))
  {
    nodes := cached;
    var todo := rows.Keys;
    TakenNone(cached, rows, server);
    while todo != {}
      invariant todo <= rows.Keys
      invariant nodes == Taken(cached, rows, todo, server)
      decreases |todo|
    {
      var key :| key in todo;
      TakenOneMore(cached, rows, todo, server, key);
      var node := rows[key];
      if node.serverId == server {
        nodes := nodes[node.id := node];
      }
      todo := todo - {key};
    }
    TakenAll(cached, rows, server);
  }

  /** After the first load the cache mirrors the rows, and the histories start from them. */
  lemma {:induction false} FirstLoad(rows: map<string, Node>, server: string)
    requires RowsKeyed(rows)
    ensures var w := Load(World(map[], map[], rows, false, map[], []), server);
            Mirrors(w, server) && Agrees(w) && ConnectionAgrees(w)
  {
    var w := Load(World(map[], map[], rows, false, map[], []), server);
    forall id | id in w.nodes ensures Subject(server, id) in rows && w.nodes[id].id == id &&
        w.nodes[id].serverId == server {
      var key :| key in rows && OwnRow(rows, server, key) && rows[key].id == id;
    }
    forall key | OwnRow(rows, server, key) ensures rows[key].id in w.nodes {
      assert rows[key].id in OwnIds(rows, server);
    }
    forall id ensures NodeAgrees(w.nodes, w.log, id) {
      if id in w.nodes {
        assert Of(w.log, id) == [] + [Loaded(w.nodes[id].available)];
        LegalAppend([], Loaded(w.nodes[id].available));
      }
    }
  }
}
