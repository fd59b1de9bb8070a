/**
 The OTBR collector: poll every configured border router, group those that answered by extended
 PAN id, and bring the known Thread networks and TREL rows in line with the groups.
 */
module OtbrCollector {
  import opened Containers
  import opened Histories

  datatype Dataset = Dataset(name: Option<string>, channel: Option<int>, panId: Option<string>)

  datatype Snapshot = Snapshot(extPanId: Option<string>, dataset: Dataset)

  /** How polling one border router ended; an exception may come after its state was stored. */
  datatype Poll = Answered(snapshot: Snapshot) | Unreachable | AnsweredThenFailed(snapshot: Snapshot)

  datatype Otbr = Otbr(reachable: bool, snapshot: Snapshot)

  datatype Classification = Primary | ObservedOther | Unknown

  datatype Network = Network(
    dataset: Dataset, classification: Classification, visible: bool, borderRouters: nat, sources: set<string>,
    firstSeen: Option<int>, lastSeen: int)

  datatype TrelRow = TrelRow(extPanId: Option<string>, foreign: Option<bool>, classification: Option<Classification>)

  /**
   The transitions decided for each subject, oldest first: true is "reachable" or "seen", false is
   "unreachable" or "lost".
   */
  type Transitions = Log<string, bool>

  /** The groups of `poll_all`: extended PAN id to the ids of the border routers on it. */
  type Groups = map<string, set<string>>

  const NO_SNAPSHOT := Snapshot(None, Dataset(None, None, None))

  // ----- polling -----

  /** `_apply_reachable_state` and `_mark_unreachable`, as far as the model keeps the state. */
  function OtbrAfter(previous: Option<Otbr>, poll: Poll): Otbr {
    match poll
    case Answered(s) => Otbr(true, s)
    case Unreachable => if previous.Some? then previous.value.(reachable := false) else Otbr(false, NO_SNAPSHOT)
    case AnsweredThenFailed(s) => Otbr(false, s)
  }

  lemma RecordTwice(log: Transitions, id: string, first: seq<bool>, second: seq<bool>)
    ensures Record(Record(log, id, first), id, second) == Record(log, id, first + second)
  {
    assert Of(log, id) + first + second == Of(log, id) + (first + second);
  }

  function OtbrEvents(previous: Option<Otbr>, poll: Poll): seq<bool> {
    var wasUp := previous.Some? && previous.value.reachable;
    var wasDown := previous.Some? && !previous.value.reachable;
    match poll
    case Answered(_) => if wasUp then [] else [true]
    case Unreachable => if wasDown then [] else [false]
    case AnsweredThenFailed(_) => (if wasUp then [] else [true]) + [false]
  }

  predicate Joined(otbr: Otbr) {
    otbr.reachable && otbr.snapshot.extPanId.GetOr("") != ""
  }

  function AddToGroup(groups: Groups, id: string, otbr: Otbr): Groups {
    if !Joined(otbr) then groups else
    var ext := otbr.snapshot.extPanId.value;
    groups[ext := Get(groups, ext).GetOr({}) + {id}]
  }

  datatype Round = Round(otbrs: map<string, Otbr>, log: Transitions, groups: Groups)

  function PollStep(r: Round, id: string, poll: Poll): Round {
    var previous := Get(r.otbrs, id);
    var state := OtbrAfter(previous, poll);
    Round(r.otbrs[id := state], Record(r.log, id, OtbrEvents(previous, poll)), AddToGroup(r.groups, id, state))
  }

  function PollRound(known: map<string, Otbr>, log: Transitions, ids: seq<string>, polls: seq<Poll>): Round
    requires |ids| == |polls|
  {
    if ids == [] then Round(known, log, map[]) else
    var n := |ids| - 1;
    PollStep(PollRound(known, log, ids[..n], polls[..n]), ids[n], polls[n])
  }

  // ----- synchronising the networks -----

  function ClassifyPrimary(ids: set<string>): (Option<string>, Classification) {
    if |ids| == 1 then
      SingletonChoice(ids);
      var id :| id in ids;
      (Some(id), Primary)
    else (None, Unknown)
  }

  lemma SingletonChoice(ids: set<string>)
    requires |ids| == 1
    ensures ids != {} && forall x, y :: x in ids && y in ids ==> x == y
  {
    var x :| x in ids;
    assert ids == {x} + (ids - {x});
  }

  function NetworkClass(ids: set<string>, id: string): Classification {
    var (primary, class_) := ClassifyPrimary(ids);
    if Some(id) == primary && class_ == Primary then Primary
    else if class_ == Unknown then Unknown
    else ObservedOther
  }

  function ClassifyTrel(ext: Option<string>, ids: set<string>): (Option<bool>, Option<Classification>) {
    var (primary, class_) := ClassifyPrimary(ids);
    if ext == None then (None, Some(Unknown))
    else if ext.value in ids then
      (Some(false), Some(if class_ == Primary && ext == primary then Primary else ObservedOther))
    else (Some(true), Some(ObservedOther))
  }

  /** The dataset comes from some polled border router on the network. */
  ghost predicate DatasetFrom(network: Network, otbrs: map<string, Otbr>, members: set<string>) {
    exists id :: id in members && id in otbrs && network.dataset == otbrs[id].snapshot.dataset
  }

  ghost predicate SeenNow(before: Option<Network>, after: Network, otbrs: map<string, Otbr>, groups: Groups, id: string,
      now: int)
    requires id in groups
  {
    && after.visible && after.borderRouters == |groups[id]| && after.sources == groups[id]
    && after.classification == NetworkClass(groups.Keys, id)
    && after.firstSeen == (if before.Some? && before.value.firstSeen.Some? then before.value.firstSeen else Some(now))
    && after.lastSeen == now
    && DatasetFrom(after, otbrs, groups[id])
  }

  function Unseen(before: Network, now: int): Network {
    if before.visible then before.(visible := false, lastSeen := now) else before
  }

  predicate Filled(groups: Groups, otbrs: map<string, Otbr>) {
    forall e :: e in groups ==> groups[e] != {} && groups[e] <= otbrs.Keys
  }

  /** What a synchronisation makes of every network. */
  ghost predicate Synced(before: map<string, Network>, after: map<string, Network>, otbrs: map<string, Otbr>,
      groups: Groups, now: int) {
    && after.Keys == before.Keys + groups.Keys
    && (forall id :: id in groups ==> SeenNow(Get(before, id), after[id], otbrs, groups, id, now))
    && (forall id :: id in before && id !in groups ==> after[id] == Unseen(before[id], now))
  }

  predicate WasVisible(before: map<string, Network>, id: string) {
    id in before && before[id].visible
  }

  function NetworkEvent(before: map<string, Network>, groups: Groups, id: string): seq<bool> {
    if id in groups then (if WasVisible(before, id) then [] else [true])
    else if WasVisible(before, id) then [false] else []
  }

  /** What a synchronisation adds to the history of every network. */
  ghost predicate Logged(logBefore: Transitions, logAfter: Transitions, before: map<string, Network>, groups: Groups) {
    forall id :: Of(logAfter, id) == Of(logBefore, id) + NetworkEvent(before, groups, id)
  }

  /** Half way through: the networks in `done` are seen, the others untouched. */
  ghost predicate HalfSynced(before: map<string, Network>, cur: map<string, Network>, otbrs: map<string, Otbr>,
      groups: Groups, done: set<string>, now: int) {
    && done <= groups.Keys && cur.Keys == before.Keys + done
    && (forall id :: id in done ==> SeenNow(Get(before, id), cur[id], otbrs, groups, id, now))
    && (forall id :: id in before && id !in done ==> cur[id] == before[id])
  }

  ghost predicate HalfLogged(logBefore: Transitions, log: Transitions, before: map<string, Network>, groups: Groups,
      done: set<string>) {
    forall id :: Of(log, id) == Of(logBefore, id) + if id in done then NetworkEvent(before, groups, id) else []
  }

  /** All groups are seen; of the other networks, those in `left` are still to be marked lost. */
  ghost predicate PartlyLost(before: map<string, Network>, cur: map<string, Network>, otbrs: map<string, Otbr>,
      groups: Groups, left: set<string>, now: int) {
    && cur.Keys == before.Keys + groups.Keys
    && AllSeen(before, cur, otbrs, groups, now) && SomeLost(before, cur, groups, left, now)
  }

  ghost predicate AllSeen(before: map<string, Network>, cur: map<string, Network>, otbrs: map<string, Otbr>,
      groups: Groups, now: int) {
    forall id :: id in groups ==> id in cur && SeenNow(Get(before, id), cur[id], otbrs, groups, id, now)
  }

  ghost predicate SomeLost(before: map<string, Network>, cur: map<string, Network>, groups: Groups, left: set<string>,
      now: int) {
    forall id :: id in before && id !in groups ==>
      id in cur && cur[id] == if id in left then before[id] else Unseen(before[id], now)
  }

  ghost predicate PartlyLogged(logBefore: Transitions, log: Transitions, before: map<string, Network>, groups: Groups,
      left: set<string>) {
    forall id :: Of(log, id) ==
      Of(logBefore, id) + if id in groups || id !in left then NetworkEvent(before, groups, id) else []
  }

  lemma StartSeeing(before: map<string, Network>, otbrs: map<string, Otbr>, groups: Groups, now: int, log: Transitions,
      todo: set<string>)
    requires todo == groups.Keys
    ensures HalfSynced(before, before, otbrs, groups, groups.Keys - todo, now)
    ensures HalfLogged(log, log, before, groups, groups.Keys - todo)
  {
  }

  lemma SeeOne(before: map<string, Network>, cur: map<string, Network>, otbrs: map<string, Otbr>, groups: Groups,
      done: set<string>,
               id: string, network: Network, now: int)
    requires HalfSynced(before, cur, otbrs, groups, done, now) && id in groups && id !in done
    requires SeenNow(Get(before, id), network, otbrs, groups, id, now)
    ensures HalfSynced(before, cur[id := network], otbrs, groups, done + {id}, now)
  {
  }

  lemma LogSeen(logBefore: Transitions, log: Transitions, before: map<string, Network>, groups: Groups,
      done: set<string>, id: string)
    requires HalfLogged(logBefore, log, before, groups, done) && id in groups && id !in done
    ensures HalfLogged(logBefore, Record(log, id, NetworkEvent(before, groups, id)), before, groups, done + {id})
  {
    assert Of(logBefore, id) + [] == Of(logBefore, id);
  }

  lemma StartLosing(before: map<string, Network>, cur: map<string, Network>, otbrs: map<string, Otbr>, groups: Groups,
      now: int,
                    logBefore: Transitions, log: Transitions)
    requires HalfSynced(before, cur, otbrs, groups, groups.Keys, now) &&
               HalfLogged(logBefore, log, before, groups, groups.Keys)
    ensures PartlyLost(before, cur, otbrs, groups, cur.Keys, now) &&
              PartlyLogged(logBefore, log, before, groups, cur.Keys)
  {
  }

  lemma StaySeen(before: map<string, Network>, cur: map<string, Network>, otbrs: map<string, Otbr>, groups: Groups,
                 id: string, network: Network, now: int)
    requires AllSeen(before, cur, otbrs, groups, now) && id !in groups
    ensures AllSeen(before, cur[id := network], otbrs, groups, now)
  {
    forall g | g in groups ensures SeenNow(Get(before, g), cur[id := network][g], otbrs, groups, g, now) {
      assert cur[id := network][g] == cur[g];
    }
  }

  lemma LoseOne(before: map<string, Network>, cur: map<string, Network>, otbrs: map<string, Otbr>, groups: Groups,
      left: set<string>,
                id: string, now: int)
    requires PartlyLost(before, cur, otbrs, groups, left, now) && id in cur && id in left
    ensures var next := if id in groups then cur else cur[id := Unseen(cur[id], now)];
            PartlyLost(before, next, otbrs, groups, left - {id}, now)
  {
    if id !in groups {
      StaySeen(before, cur, otbrs, groups, id, Unseen(cur[id], now), now);
    }
  }

  lemma LogLost(logBefore: Transitions, log: Transitions, before: map<string, Network>, groups: Groups,
      left: set<string>, id: string)
    requires PartlyLogged(logBefore, log, before, groups, left) && id in left
    ensures var added := if id in groups then [] else NetworkEvent(before, groups, id);
            PartlyLogged(logBefore, Record(log, id, added), before, groups, left - {id})
  {
    assert Of(logBefore, id) + [] == Of(logBefore, id);
    assert Of(log, id) + [] == Of(log, id);
  }

  /** Every TREL row is classified against the extended PAN ids of this round. */
  predicate Correlated(before: map<string, TrelRow>, after: map<string, TrelRow>, ids: set<string>) {
    && after.Keys == before.Keys
    && (forall row :: row in before ==>
          && after[row].extPanId == before[row].extPanId
          && (after[row].foreign, after[row].classification) == ClassifyTrel(before[row].extPanId, ids))
  }

  class Collector {
    var knownOtbrs: map<string, Otbr>
    var knownNetworks: map<string, Network>
    var trelRows: map<string, TrelRow>
    ghost var otbrLog: Transitions
    ghost var networkLog: Transitions

    constructor ()
      ensures knownOtbrs == map[] && knownNetworks == map[] && trelRows == map[]
      ensures otbrLog == map[] && networkLog == map[]
    {
      knownOtbrs, knownNetworks, trelRows := map[], map[], map[];
      otbrLog, networkLog := map[], map[];
    }

    /** One iteration of the poll loop, including the handler of unexpected exceptions. */
    method PollOne(id: string, poll: Poll) returns (state: Otbr)
      modifies this`knownOtbrs, this`otbrLog
      ensures state == OtbrAfter(Get(old(knownOtbrs), id), poll)
      ensures knownOtbrs == old(knownOtbrs)[id := state]
      ensures otbrLog == Record(old(otbrLog), id, OtbrEvents(Get(old(knownOtbrs), id), poll))
    {
      if poll.Unreachable? {
        state := MarkUnreachable(id);
        return;
      }
      ghost var first := OtbrEvents(Get(knownOtbrs, id), Answered(poll.snapshot));
      RecordTwice(otbrLog, id, first, [false]);
      state := ApplyReachable(id, poll.snapshot);
      if poll.AnsweredThenFailed? {
        state := MarkUnreachable(id);
      }
    }

    method ApplyReachable(id: string, snapshot: Snapshot) returns (state: Otbr)
      modifies this`knownOtbrs, this`otbrLog
      ensures state == Otbr(true, snapshot) && knownOtbrs == old(knownOtbrs)[id := state]
      ensures otbrLog == Record(old(otbrLog), id, OtbrEvents(Get(old(knownOtbrs), id), Answered(snapshot)))
    {
      var previous := Get(knownOtbrs, id);
      state := Otbr(true, snapshot);
      knownOtbrs := knownOtbrs[id := state];
      otbrLog := Record(otbrLog, id, if previous == None || !previous.value.reachable then [true] else []);
    }

    method MarkUnreachable(id: string) returns (state: Otbr)
      modifies this`knownOtbrs, this`otbrLog
      ensures state == OtbrAfter(Get(old(knownOtbrs), id), Unreachable) && knownOtbrs == old(knownOtbrs)[id := state]
      ensures otbrLog == Record(old(otbrLog), id, OtbrEvents(Get(old(knownOtbrs), id), Unreachable))
    {
      var previous := Get(knownOtbrs, id);
      state := Otbr(false, NO_SNAPSHOT);
      if previous != None {
        state := previous.value.(reachable := false);
      }
      knownOtbrs := knownOtbrs[id := state];
      otbrLog := Record(otbrLog, id, if previous == None || previous.value.reachable then [false] else []);
    }

    method PollAll(ids: seq<string>, polls: seq<Poll>, now: int)
      requires |ids| == |polls|
      modifies this
      ensures var r := PollRound(old(knownOtbrs), old(otbrLog), ids, polls);
              && knownOtbrs == r.otbrs && otbrLog == r.log
              && Synced(old(knownNetworks), knownNetworks, r.otbrs, r.groups, now)
              && Logged(old(networkLog), networkLog, old(knownNetworks), r.groups)
              && Correlated(old(trelRows), trelRows, r.groups.Keys)
    {
      var groups := PollEach(ids, polls);
      GroupsAreFilled(old(knownOtbrs), old(otbrLog), ids, polls);
      SyncNetworks(groups, now);
      CorrelateTrel(groups.Keys);
    }

    /** The poll loop of `poll_all`. */
    method PollEach(ids: seq<string>, polls: seq<Poll>) returns (groups: Groups)
      requires |ids| == |polls|
      modifies this`knownOtbrs, this`otbrLog
      ensures Round(knownOtbrs, otbrLog, groups) == PollRound(old(knownOtbrs), old(otbrLog), ids, polls)
    {
      groups := map[];
      for i := 0 to |ids|
        invariant Round(knownOtbrs, otbrLog, groups) == PollRound(old(knownOtbrs), old(otbrLog), ids[..i], polls[..i])
      {
        assert ids[..i + 1][..i] == ids[..i] && polls[..i + 1][..i] == polls[..i];
        var state := PollOne(ids[i], polls[i]);
        if state.reachable && state.snapshot.extPanId.GetOr("") != "" {
          var ext := state.snapshot.extPanId.value;
          groups := groups[ext := (if ext in groups then groups[ext] else {}) + {ids[i]}];
        }
      }
      assert ids[..|ids|] == ids && polls[..|polls|] == polls;
    }

    method SyncNetworks(groups: Groups, now: int)
      requires Filled(groups, knownOtbrs)
      modifies this`knownNetworks, this`networkLog
      ensures Synced(old(knownNetworks), knownNetworks, knownOtbrs, groups, now)
      ensures Logged(old(networkLog), networkLog, old(knownNetworks), groups)
    {
      MarkSeen(groups, now);
      MarkLost(groups, now, old(knownNetworks), old(networkLog));
    }

    /** The first loop: every group is seen, in any order. */
    method MarkSeen(groups: Groups, now: int)
      requires Filled(groups, knownOtbrs)
      modifies this`knownNetworks, this`networkLog
      ensures HalfSynced(old(knownNetworks), knownNetworks, knownOtbrs, groups, groups.Keys, now)
      ensures HalfLogged(old(networkLog), networkLog, old(knownNetworks), groups, groups.Keys)
    {
      var todo := groups.Keys;
      StartSeeing(knownNetworks, knownOtbrs, groups, now, networkLog, todo);
      while todo != {}
        invariant todo <= groups.Keys
        invariant HalfSynced(old(knownNetworks), knownNetworks, knownOtbrs, groups, groups.Keys - todo, now)
        invariant HalfLogged(old(networkLog), networkLog, old(knownNetworks), groups, groups.Keys - todo)
        decreases |todo|
      {
        var id :| id in todo;
        SeeNetwork(id, groups, now, old(knownNetworks), old(networkLog), todo);
        todo := todo - {id};
      }
      assert groups.Keys - todo == groups.Keys;
    }

    method SeeNetwork(id: string, groups: Groups, now: int, ghost before: map<string, Network>,
        ghost logBefore: Transitions, ghost todo: set<string>)
      requires id in groups && id in todo && Filled(groups, knownOtbrs)
      requires HalfSynced(before, knownNetworks, knownOtbrs, groups, groups.Keys - todo, now)
      requires HalfLogged(logBefore, networkLog, before, groups, groups.Keys - todo)
      modifies this`knownNetworks, this`networkLog
      ensures HalfSynced(before, knownNetworks, knownOtbrs, groups, groups.Keys - (todo - {id}), now)
      ensures HalfLogged(logBefore, networkLog, before, groups, groups.Keys - (todo - {id}))
    {
      var previous := Get(knownNetworks, id);
      var sample :| sample in groups[id];
      var firstSeen :=
        if previous != None && previous.value.firstSeen != None then previous.value.firstSeen else Some(now);
      var network := Network(
        knownOtbrs[sample].snapshot.dataset, NetworkClass(groups.Keys, id), true, |groups[id]|, groups[id], firstSeen,
            now);
      ghost var done := groups.Keys - todo;
      assert Get(before, id) == previous;
      assert DatasetFrom(network, knownOtbrs, groups[id]);
      SeeOne(before, knownNetworks, knownOtbrs, groups, done, id, network, now);
      LogSeen(logBefore, networkLog, before, groups, done, id);
      assert groups.Keys - (todo - {id}) == done + {id};
      knownNetworks := knownNetworks[id := network];
      networkLog := Record(networkLog, id, if previous == None || !previous.value.visible then [true] else []);
    }

    /** The second loop: every other visible network is lost, in any order. */
    method MarkLost(groups: Groups, now: int, ghost before: map<string, Network>, ghost logBefore: Transitions)
      requires HalfSynced(before, knownNetworks, knownOtbrs, groups, groups.Keys, now)
      requires HalfLogged(logBefore, networkLog, before, groups, groups.Keys)
      modifies this`knownNetworks, this`networkLog
      ensures Synced(before, knownNetworks, knownOtbrs, groups, now)
      ensures Logged(logBefore, networkLog, before, groups)
    {
      var left := knownNetworks.Keys;
      StartLosing(before, knownNetworks, knownOtbrs, groups, now, logBefore, networkLog);
      while left != {}
        invariant left <= knownNetworks.Keys
        invariant PartlyLost(before, knownNetworks, knownOtbrs, groups, left, now)
        invariant PartlyLogged(logBefore, networkLog, before, groups, left)
        decreases |left|
      {
        var id :| id in left;
        LoseNetwork(id, groups, now, before, logBefore, left);
        left := left - {id};
      }
    }

    method LoseNetwork(id: string, groups: Groups, now: int, ghost before: map<string, Network>,
        ghost logBefore: Transitions, ghost left: set<string>)
      requires id in left && id in knownNetworks
      requires PartlyLost(before, knownNetworks, knownOtbrs, groups, left, now)
      requires PartlyLogged(logBefore, networkLog, before, groups, left)
      modifies this`knownNetworks, this`networkLog
      ensures knownNetworks.Keys == old(knownNetworks.Keys)
      ensures PartlyLost(before, knownNetworks, knownOtbrs, groups, left - {id}, now)
      ensures PartlyLogged(logBefore, networkLog, before, groups, left - {id})
    {
      LoseOne(before, knownNetworks, knownOtbrs, groups, left, id, now);
      LogLost(logBefore, networkLog, before, groups, left, id);
      if id in groups {
        networkLog := Record(networkLog, id, []);
        return;
      }
      var previous := knownNetworks[id];
      if previous.visible {
        knownNetworks := knownNetworks[id := previous.(visible := false, lastSeen := now)];
      }
      assert WasVisible(before, id) == previous.visible;
      networkLog := Record(networkLog, id, if previous.visible then [false] else []);
    }

    method CorrelateTrel(ids: set<string>)
      modifies this`trelRows
      ensures Correlated(old(trelRows), trelRows, ids)
    {
      var todo := trelRows.Keys;
      while todo != {}
        invariant todo <= trelRows.Keys == old(trelRows).Keys
        invariant forall row :: row in todo ==> trelRows[row] == old(trelRows)[row]
        invariant forall row :: row in trelRows && row !in todo ==>
                    && trelRows[row].extPanId == old(trelRows)[row].extPanId
                    && (trelRows[row].foreign, trelRows[row].classification) ==
                        ClassifyTrel(old(trelRows)[row].extPanId, ids)
        decreases |todo|
      {
        var row :| row in todo;
        var (foreign, classification) := ClassifyTrel(trelRows[row].extPanId, ids);
        trelRows := trelRows[row := trelRows[row].(foreign := foreign, classification := classification)];
        todo := todo - {row};
      }
    }
  }

  // ----- what the groups are -----

  lemma StepFills(r: Round, id: string, poll: Poll)
    requires Filled(r.groups, r.otbrs)
    ensures var next := PollStep(r, id, poll);
            Filled(next.groups, next.otbrs)
  {
    var next := PollStep(r, id, poll);
    forall e | e in next.groups ensures next.groups[e] != {} && next.groups[e] <= next.otbrs.Keys {
      assert id in next.groups[e] || (e in r.groups && next.groups[e] == r.groups[e]);
    }
  }

  lemma {:induction false} GroupsAreFilled(known: map<string, Otbr>, log: Transitions, ids: seq<string>,
      polls: seq<Poll>)
    requires |ids| == |polls|
    ensures var r := PollRound(known, log, ids, polls);
            Filled(r.groups, r.otbrs)
  {
    if ids != [] {
      var n := |ids| - 1;
      GroupsAreFilled(known, log, ids[..n], polls[..n]);
      StepFills(PollRound(known, log, ids[..n], polls[..n]), ids[n], polls[n]);
    }
  }

  predicate Unique(ids: seq<string>) {
    forall i, j :: 0 <= i < j < |ids| ==> ids[i] != ids[j]
  }

  predicate On(otbrs: map<string, Otbr>, id: string, ext: string) {
    id in otbrs && Joined(otbrs[id]) && otbrs[id].snapshot.extPanId == Some(ext)
  }

  /** The border routers of `ids` that are reachable on one extended PAN id. */
  function MembersOf(otbrs: map<string, Otbr>, ids: seq<string>, ext: string): set<string> {
    set id | id in ids && On(otbrs, id, ext)
  }

  predicate GroupIs(groups: Groups, ext: string, members: set<string>) {
    (ext in groups <==> members != {}) && (ext in groups ==> groups[ext] == members)
  }

  lemma StepMembers(r: Round, ids: seq<string>, id: string, poll: Poll, ext: string)
    requires id !in ids && GroupIs(r.groups, ext, MembersOf(r.otbrs, ids, ext))
    ensures var next := PollStep(r, id, poll);
            GroupIs(next.groups, ext, MembersOf(next.otbrs, ids + [id], ext))
  {
    var next := PollStep(r, id, poll);
    var added := if On(next.otbrs, id, ext) then {id} else {};
    assert MembersOf(next.otbrs, ids + [id], ext) == MembersOf(r.otbrs, ids, ext) + added;
  }

  /** The groups are exactly the reachable border routers sorted by extended PAN id. */
  lemma {:induction false} GroupsAreMembers(known: map<string, Otbr>, log: Transitions, ids: seq<string>,
      polls: seq<Poll>, ext: string)
    requires |ids| == |polls| && Unique(ids)
    ensures var r := PollRound(known, log, ids, polls);
            GroupIs(r.groups, ext, MembersOf(r.otbrs, ids, ext))
  {
    if ids != [] {
      var n := |ids| - 1;
      GroupsAreMembers(known, log, ids[..n], polls[..n], ext);
      assert ids[..n] + [ids[n]] == ids;
      StepMembers(PollRound(known, log, ids[..n], polls[..n]), ids[..n], ids[n], polls[n], ext);
    }
  }

  // ----- after every synchronisation -----

  function Visible(networks: map<string, Network>): set<string> {
    set id | id in networks && networks[id].visible
  }

  /** Visible networks are exactly those some reachable border router reported this round. */
  lemma {:induction false} VisibleAreTheGroups(before: map<string, Network>, after: map<string, Network>,
      otbrs: map<string, Otbr>, groups: Groups, now: int)
    requires Synced(before, after, otbrs, groups, now)
    ensures Visible(after) == groups.Keys
  {
  }

  lemma ClassOfReported(ids: set<string>, id: string)
    requires id in ids
    ensures NetworkClass(ids, id) == if |ids| == 1 then Primary else Unknown
  {
    if |ids| == 1 {
      SingletonChoice(ids);
    }
  }

  /**
   A visible PRIMARY network exists exactly when one distinct id was reported, and then it is the
   only visible network; a synchronisation never classifies a visible network as observed-other.
   */
  lemma {:induction false} PrimaryMeansAlone(before: map<string, Network>, after: map<string, Network>,
      otbrs: map<string, Otbr>, groups: Groups, now: int)
    requires Synced(before, after, otbrs, groups, now)
    ensures (exists id :: id in Visible(after) && after[id].classification.Primary?) <==> |groups.Keys| == 1
    ensures forall id :: id in Visible(after) && after[id].classification.Primary? ==> Visible(after) == {id}
    ensures forall id :: id in Visible(after) ==> !after[id].classification.ObservedOther?
  {
    VisibleAreTheGroups(before, after, otbrs, groups, now);
    forall id | id in groups
      ensures after[id].classification == if |groups.Keys| == 1 then Primary else Unknown
    {
      ClassOfReported(groups.Keys, id);
    }
    if |groups.Keys| == 1 {
      SingletonChoice(groups.Keys);
      var id :| id in groups.Keys;
      assert groups.Keys == {id};
    }
  }

  /** A TREL row is foreign exactly when its network is known and not visible after the round. */
  lemma {:induction false} ForeignMeansNotVisible(before: map<string, Network>, after: map<string, Network>,
      otbrs: map<string, Otbr>, groups: Groups, now: int,
                               rows: map<string, TrelRow>, rowsAfter: map<string, TrelRow>, row: string)
    requires Synced(before, after, otbrs, groups, now) && Correlated(rows, rowsAfter, groups.Keys) && row in rows
    ensures rowsAfter[row].foreign == Some(true) <==>
              rows[row].extPanId.Some? && rows[row].extPanId.value !in Visible(after)
    ensures rowsAfter[row].classification == Some(Primary) <==>
              rows[row].extPanId.Some? && Visible(after) == {rows[row].extPanId.value}
  {
    VisibleAreTheGroups(before, after, otbrs, groups, now);
    TrelClass(rows[row].extPanId, groups.Keys);
  }

  lemma TrelClass(ext: Option<string>, ids: set<string>)
    ensures ClassifyTrel(ext, ids).0 == Some(true) <==> ext.Some? && ext.value !in ids
    ensures ClassifyTrel(ext, ids).1 == Some(Primary) <==> ext.Some? && ids == {ext.value}
  {
    if |ids| == 1 {
      SingletonChoice(ids);
      var id :| id in ids;
      assert ids == {id};
    }
  }

  /** The border-router counts of some networks, added up. */
  ghost function TotalRouters(networks: map<string, Network>, ids: set<string>): nat
    requires ids <= networks.Keys
  {
    if ids == {} then 0 else
    var id :| id in ids;
    networks[id].borderRouters + TotalRouters(networks, ids - {id})
  }

  function JoinedAny(otbrs: map<string, Otbr>, ids: seq<string>, exts: set<string>): set<string> {
    set id | id in ids && id in otbrs && Joined(otbrs[id]) && otbrs[id].snapshot.extPanId.value in exts
  }

  lemma JoinedSplit(otbrs: map<string, Otbr>, ids: seq<string>, exts: set<string>, ext: string)
    requires ext in exts
    ensures |JoinedAny(otbrs, ids, exts)| == |MembersOf(otbrs, ids, ext)| + |JoinedAny(otbrs, ids, exts - {ext})|
  {
    var here, rest := MembersOf(otbrs, ids, ext), JoinedAny(otbrs, ids, exts - {ext});
    assert JoinedAny(otbrs, ids, exts) == here + rest;
    assert here !! rest;
  }

  /** Each network counts its own members. */
  ghost predicate CountsMembers(networks: map<string, Network>, otbrs: map<string, Otbr>, ids: seq<string>,
      exts: set<string>) {
    forall ext :: ext in exts ==> ext in networks && networks[ext].borderRouters == |MembersOf(otbrs, ids, ext)|
  }

  lemma {:induction false} CountsAddUp(networks: map<string, Network>, otbrs: map<string, Otbr>, ids: seq<string>,
      exts: set<string>)
    requires exts <= networks.Keys && CountsMembers(networks, otbrs, ids, exts)
    ensures TotalRouters(networks, exts) == |JoinedAny(otbrs, ids, exts)|
    decreases |exts|
  {
    if exts == {} {
      assert JoinedAny(otbrs, ids, exts) == {};
    } else {
      var ext :| ext in exts && TotalRouters(networks, exts) ==
          networks[ext].borderRouters + TotalRouters(networks, exts - {ext});
      CountsAddUp(networks, otbrs, ids, exts - {ext});
      JoinedSplit(otbrs, ids, exts, ext);
    }
  }

  /**
   Conservation: the border-router counts of the visible networks add up to the number of
   configured border routers that are reachable with an extended PAN id.
   */
  lemma {:induction false} RoutersAreConserved(known: map<string, Otbr>, log: Transitions, ids: seq<string>,
      polls: seq<Poll>,
                            before: map<string, Network>, after: map<string, Network>, now: int)
    requires |ids| == |polls| && Unique(ids)
    requires var r := PollRound(known, log, ids, polls); Synced(before, after, r.otbrs, r.groups, now)
    ensures var r := PollRound(known, log, ids, polls);
            && Visible(after) <= after.Keys
            && TotalRouters(after, Visible(after)) == |set id | id in ids && id in r.otbrs && Joined(r.otbrs[id])|
  {
    var r := PollRound(known, log, ids, polls);
    VisibleAreTheGroups(before, after, r.otbrs, r.groups, now);
    forall ext | ext in r.groups ensures r.groups[ext] == MembersOf(r.otbrs, ids, ext) {
      GroupsAreMembers(known, log, ids, polls, ext);
    }
    CountsAddUp(after, r.otbrs, ids, r.groups.Keys);
    AllJoinedAreGrouped(known, log, ids, polls);
  }

  lemma AllJoinedAreGrouped(known: map<string, Otbr>, log: Transitions, ids: seq<string>, polls: seq<Poll>)
    requires |ids| == |polls| && Unique(ids)
    ensures var r := PollRound(known, log, ids, polls);
            JoinedAny(r.otbrs, ids, r.groups.Keys) == set id | id in ids && id in r.otbrs && Joined(r.otbrs[id])
  {
    var r := PollRound(known, log, ids, polls);
    forall id | id in ids && id in r.otbrs && Joined(r.otbrs[id])
      ensures r.otbrs[id].snapshot.extPanId.value in r.groups {
      var ext := r.otbrs[id].snapshot.extPanId.value;
      GroupsAreMembers(known, log, ids, polls, ext);
      assert id in MembersOf(r.otbrs, ids, ext);
    }
  }

  // ----- histories over many rounds -----

  /** No transition repeats the one before it. */
  ghost predicate NoRepeats(history: seq<bool>) {
    forall i, j :: 0 <= i < j < |history| && j == i + 1 ==> history[i] != history[j]
  }

  /** A subject's history alternates and its cached flag is the latest transition. */
  ghost predicate Tells(history: seq<bool>, known: bool, up: bool) {
    && NoRepeats(history)
    && (known <==> history != [])
    && (known ==> up == history[|history| - 1])
  }

  /** Networks and the histories that led to them. */
  datatype NetworkState = NetworkState(networks: map<string, Network>, log: Transitions)

  ghost predicate NetworkRun(states: seq<NetworkState>) {
    && states != [] && states[0] == NetworkState(map[], map[])
    && (forall i, j :: 0 <= i < j < |states| && j == i + 1 ==> NetworkStep(states[i], states[j]))
  }

  ghost predicate NetworkStep(before: NetworkState, after: NetworkState) {
    exists otbrs: map<string, Otbr>, groups: Groups, now: int ::
      && Synced(before.networks, after.networks, otbrs, groups, now)
      && Logged(before.log, after.log, before.networks, groups)
  }

  /** The network's history and cached flag agree. */
  ghost predicate NetworkTells(s: NetworkState, id: string) {
    var history := Of(s.log, id);
    Tells(history, id in s.networks, WasVisible(s.networks, id)) && (history != [] ==> history[0])
  }

  /** One more synchronisation extends a network's history by what it decides. */
  lemma TellsOnce(before: map<string, Network>, after: map<string, Network>, groups: Groups, id: string,
      history: seq<bool>)
    requires Tells(history, id in before, WasVisible(before, id)) && (history != [] ==> history[0])
    requires id in after <==> id in before || id in groups
    requires WasVisible(after, id) <==> id in groups
    ensures var next := history + NetworkEvent(before, groups, id);
            Tells(next, id in after, WasVisible(after, id)) && (next != [] ==> next[0])
  {
  }

  lemma StepKeepsTelling(before: NetworkState, after: NetworkState, id: string)
    requires NetworkStep(before, after) && NetworkTells(before, id)
    ensures NetworkTells(after, id)
  {
    var otbrs: map<string, Otbr>, groups: Groups, now: int :|
      Synced(before.networks, after.networks, otbrs, groups, now)
      && Logged(before.log, after.log, before.networks, groups);
    assert Of(after.log, id) == Of(before.log, id) + NetworkEvent(before.networks, groups, id);
    VisibleNow(before.networks, after.networks, otbrs, groups, now, id);
    TellsOnce(before.networks, after.networks, groups, id, Of(before.log, id));
  }

  lemma VisibleNow(before: map<string, Network>, after: map<string, Network>, otbrs: map<string, Otbr>, groups: Groups,
      now: int, id: string)
    requires Synced(before, after, otbrs, groups, now)
    ensures id in after <==> id in before || id in groups
    ensures WasVisible(after, id) <==> id in groups
  {
  }

  /** Seen and lost alternate for every network, starting with seen; visible means last seen. */
  lemma {:induction false} NetworksAlternate(states: seq<NetworkState>, id: string)
    requires NetworkRun(states)
    ensures NetworkTells(states[|states| - 1], id)
    decreases |states|
  {
    var n := |states| - 1;
    if n > 0 {
      RunShrinks(states);
      NetworksAlternate(states[..n], id);
      assert NetworkStep(states[n - 1], states[n]);
      StepKeepsTelling(states[n - 1], states[n], id);
    }
  }

  lemma RunShrinks(states: seq<NetworkState>)
    requires NetworkRun(states) && |states| > 1
    ensures NetworkRun(states[..|states| - 1])
  {
  }

  datatype OtbrState = OtbrState(otbrs: map<string, Otbr>, log: Transitions)

  lemma PollKeepsTelling(r: Round, id: string, poll: Poll, subject: string)
    requires Tells(Of(r.log, subject), subject in r.otbrs, subject in r.otbrs && r.otbrs[subject].reachable)
    ensures var next := PollStep(r, id, poll);
            Tells(Of(next.log, subject), subject in next.otbrs, subject in next.otbrs && next.otbrs[subject].reachable)
  {
  }

  lemma {:induction false} RoundKeepsTelling(known: map<string, Otbr>, log: Transitions, ids: seq<string>,
      polls: seq<Poll>, subject: string)
    requires |ids| == |polls|
    requires Tells(Of(log, subject), subject in known, subject in known && known[subject].reachable)
    ensures var r := PollRound(known, log, ids, polls);
            Tells(Of(r.log, subject), subject in r.otbrs, subject in r.otbrs && r.otbrs[subject].reachable)
  {
    if ids != [] {
      var n := |ids| - 1;
      RoundKeepsTelling(known, log, ids[..n], polls[..n], subject);
      PollKeepsTelling(PollRound(known, log, ids[..n], polls[..n]), ids[n], polls[n], subject);
    }
  }

  /** All rounds of polling from an empty cache. */
  function Rounds(ids: seq<string>, rounds: seq<seq<Poll>>): OtbrState
    requires forall i :: 0 <= i < |rounds| ==> |rounds[i]| == |ids|
  {
    if rounds == [] then OtbrState(map[], map[]) else
    var n := |rounds| - 1;
    var before := Rounds(ids, rounds[..n]);
    var r := PollRound(before.otbrs, before.log, ids, rounds[n]);
    OtbrState(r.otbrs, r.log)
  }

  /** Reachable and unreachable alternate for every border router, and the state is the latest. */
  lemma {:induction false} OtbrsAlternate(ids: seq<string>, rounds: seq<seq<Poll>>, subject: string)
    requires forall i :: 0 <= i < |rounds| ==> |rounds[i]| == |ids|
    ensures var s := Rounds(ids, rounds);
            Tells(Of(s.log, subject), subject in s.otbrs, subject in s.otbrs && s.otbrs[subject].reachable)
  {
    if rounds != [] {
      var n := |rounds| - 1;
      OtbrsAlternate(ids, rounds[..n], subject);
      var before := Rounds(ids, rounds[..n]);
      RoundKeepsTelling(before.otbrs, before.log, ids, rounds[n], subject);
    }
  }
}
