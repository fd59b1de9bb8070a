/**
 What the collector holds of border routers and networks, told from the polls alone.
 */
module OtbrRuns {
  import opened Containers
  import opened Histories
  import opened OtbrCollector

  // ----- one border router over all rounds -----

  /** What one poll says, in order: up, down, or up and then down. */
  function Signals(poll: Poll): seq<bool> {
    match poll
    case Answered(_) => [true]
    case Unreachable => [false]
    case AnsweredThenFailed(_) => [true, false]
  }

  /** All that the polls of the border router at position `p` said. */
  function AllSignals(rounds: seq<seq<Poll>>, p: nat): seq<bool>
    requires forall i :: 0 <= i < |rounds| ==> p < |rounds[i]|
  {
    if rounds == [] then [] else AllSignals(rounds[..|rounds| - 1], p) + Signals(rounds[|rounds| - 1][p])
  }

  /** What the border router answered last. */
  function LatestAnswer(rounds: seq<seq<Poll>>, p: nat): Snapshot
    requires forall i :: 0 <= i < |rounds| ==> p < |rounds[i]|
  {
    if rounds == [] then Snapshot(None, Dataset(None, None, None)) else
    var last := rounds[|rounds| - 1][p];
    if last.Unreachable? then LatestAnswer(rounds[..|rounds| - 1], p) else last.snapshot
  }

  function Shown(state: Option<Otbr>): Option<bool> {
    if state.Some? then Some(state.value.reachable) else None
  }

  /** The state tells these signals and this answer, and the history their changes. */
  predicate TellsPolls(state: Option<Otbr>, history: seq<bool>, signals: seq<bool>, answer: Snapshot) {
    && history == Changes(None, signals)
    && Shown(state) == Latest(None, signals)
    && (state.Some? ==> state.value.snapshot == answer)
  }

  lemma PollIsChanges(state: Option<Otbr>, poll: Poll)
    ensures OtbrEvents(state, poll) == Changes(Shown(state), Signals(poll))
    ensures Shown(Some(OtbrAfter(state, poll))) == Latest(Shown(state), Signals(poll))
  {
    assert [true, false][1..] == [false] && [true][1..] == [] && [false][1..] == [];
  }

  lemma PollTells(state: Option<Otbr>, history: seq<bool>, signals: seq<bool>, answer: Snapshot, poll: Poll)
    requires TellsPolls(state, history, signals, answer)
    requires state.None? ==> answer == Snapshot(None, Dataset(None, None, None))
    ensures TellsPolls(Some(OtbrAfter(state, poll)), history + OtbrEvents(state, poll), signals + Signals(poll),
              if poll.Unreachable? then answer else poll.snapshot)
  {
    PollIsChanges(state, poll);
    ChangesAppend(None, signals, Signals(poll));
    LatestAppend(None, signals, Signals(poll));
  }

  lemma PollingOne(r: Round, id: string, poll: Poll, other: string)
    ensures var s, before := PollStep(r, id, poll), Get(r.otbrs, id);
            && Get(s.otbrs, other) == (if other == id then Some(OtbrAfter(before, poll)) else Get(r.otbrs, other))
            && Of(s.log, other) == Of(r.log, other) + if other == id then OtbrEvents(before, poll) else []
  {
    assert Of(r.log, other) + [] == Of(r.log, other);
  }

  /** Of everything in the round, only this poll concerned the border router. */
  predicate PolledOnce(known: map<string, Otbr>, log: Transitions, r: Round, id: string, poll: Poll) {
    && Get(r.otbrs, id) == Some(OtbrAfter(Get(known, id), poll))
    && Of(r.log, id) == Of(log, id) + OtbrEvents(Get(known, id), poll)
  }

  lemma PolledNow(known: map<string, Otbr>, log: Transitions, r: Round, id: string, poll: Poll)
    requires Get(r.otbrs, id) == Get(known, id) && Of(r.log, id) == Of(log, id)
    ensures PolledOnce(known, log, PollStep(r, id, poll), id, poll)
  {
    PollingOne(r, id, poll, id);
  }

  lemma PolledBefore(known: map<string, Otbr>, log: Transitions, r: Round, id: string, poll: Poll, last: string,
      lastPoll: Poll)
    requires PolledOnce(known, log, r, id, poll) && id != last
    ensures PolledOnce(known, log, PollStep(r, last, lastPoll), id, poll)
  {
    PollingOne(r, last, lastPoll, id);
  }

  /** A round polls each border router once. */
  lemma {:induction false} RoundPollsOnce(known: map<string, Otbr>, log: Transitions, ids: seq<string>,
      polls: seq<Poll>, p: nat)
    requires |ids| == |polls| && Unique(ids) && p < |ids|
    ensures PolledOnce(known, log, PollRound(known, log, ids, polls), ids[p], polls[p])
    decreases |ids|
  {
    var n := |ids| - 1;
    var r := PollRound(known, log, ids[..n], polls[..n]);
    if p < n {
      RoundPollsOnce(known, log, ids[..n], polls[..n], p);
      PolledBefore(known, log, r, ids[p], polls[p], ids[n], polls[n]);
    } else {
      RoundLeavesOthers(known, log, ids[..n], polls[..n], ids[n]);
      PolledNow(known, log, r, ids[n], polls[n]);
    }
  }

  lemma {:induction false} RoundLeavesOthers(known: map<string, Otbr>, log: Transitions, ids: seq<string>,
      polls: seq<Poll>, id: string)
    requires |ids| == |polls| && id !in ids
    ensures var r := PollRound(known, log, ids, polls);
            Get(r.otbrs, id) == Get(known, id) && Of(r.log, id) == Of(log, id)
    decreases |ids|
  {
    if ids != [] {
      var n := |ids| - 1;
      RoundLeavesOthers(known, log, ids[..n], polls[..n], id);
      PollingOne(PollRound(known, log, ids[..n], polls[..n]), ids[n], polls[n], id);
      assert ids[n] != id;
    }
  }

  predicate FullRounds(ids: seq<string>, rounds: seq<seq<Poll>>) {
    forall i :: 0 <= i < |rounds| ==> |rounds[i]| == |ids|
  }

  /**
   Over any rounds from an empty cache, for every configured border router: its history is the
   changes in what its polls said, it is reachable exactly if they said so last, and it is kept with
   its latest answer, through any number of failed polls.
   */
  lemma {:induction false} OtbrHoldsTheLatestAnswer(ids: seq<string>, rounds: seq<seq<Poll>>, p: nat)
    requires Unique(ids) && FullRounds(ids, rounds) && p < |ids|
    ensures var s := Rounds(ids, rounds);
            TellsPolls(Get(s.otbrs, ids[p]), Of(s.log, ids[p]), AllSignals(rounds, p), LatestAnswer(rounds, p))
    ensures rounds == [] <==> Get(Rounds(ids, rounds).otbrs, ids[p]).None?
  {
    if rounds != [] {
      var n := |rounds| - 1;
      var before := Rounds(ids, rounds[..n]);
      OtbrHoldsTheLatestAnswer(ids, rounds[..n], p);
      RoundPollsOnce(before.otbrs, before.log, ids, rounds[n], p);
      PollTells(Get(before.otbrs, ids[p]), Of(before.log, ids[p]), AllSignals(rounds[..n], p),
        LatestAnswer(rounds[..n], p), rounds[n][p]);
    }
  }

  // ----- groups, networks and TREL rows of one round -----

  /** A group holds exactly the polled border routers that are reachable with its extended PAN id. */
  lemma {:induction false} GroupedExactlyWhen(known: map<string, Otbr>, log: Transitions, ids: seq<string>,
      polls: seq<Poll>, ext: string, id: string)
    requires |ids| == |polls| && Unique(ids)
    ensures var r := PollRound(known, log, ids, polls);
            && (ext in r.groups ==> r.groups[ext] != {})
            && (ext in r.groups && id in r.groups[ext] <==>
                  id in ids && id in r.otbrs && r.otbrs[id].reachable && r.otbrs[id].snapshot.extPanId == Some(ext)
                  && ext != "")
  {
    GroupsAreMembers(known, log, ids, polls, ext);
    var r := PollRound(known, log, ids, polls);
    assert id in MembersOf(r.otbrs, ids, ext) <==> id in ids && On(r.otbrs, id, ext);
  }

  /** A network that was not seen keeps all but its visibility, and the time of the round if it was visible. */
  lemma {:induction false} LostNetworkKeeps(before: map<string, Network>, after: map<string, Network>,
      otbrs: map<string, Otbr>, groups: Groups, now: int, id: string)
    requires Synced(before, after, otbrs, groups, now) && id in before && id !in groups
    ensures id in after && !after[id].visible
    ensures after[id].lastSeen == if before[id].visible then now else before[id].lastSeen
    ensures after[id].dataset == before[id].dataset && after[id].classification == before[id].classification
    ensures after[id].borderRouters == before[id].borderRouters && after[id].sources == before[id].sources
    ensures after[id].firstSeen == before[id].firstSeen
  {
  }

  /** How a TREL row is classified. */
  lemma {:induction false} RowsAreClassified(rows: map<string, TrelRow>, after: map<string, TrelRow>, seen: set<string>,
      row: string)
    requires Correlated(rows, after, seen) && row in rows
    ensures row in after && after[row].extPanId == rows[row].extPanId
    ensures var ext := rows[row].extPanId;
            && after[row].foreign == (if ext.None? then None else Some(ext.value !in seen))
            && after[row].classification ==
                 Some(if ext.None? then Unknown else if seen == {ext.value} then Primary else ObservedOther)
  {
    TrelClass(rows[row].extPanId, seen);
  }

  /** A network seen in a round is primary if it is the only one, and unknown otherwise. */
  lemma {:induction false} SeenNetworksAre(before: map<string, Network>, after: map<string, Network>,
      otbrs: map<string, Otbr>, groups: Groups, now: int, id: string)
    requires Synced(before, after, otbrs, groups, now) && id in groups
    ensures id in after && after[id].classification == if groups.Keys == {id} then Primary else Unknown
  {
    ClassOfReported(groups.Keys, id);
    if |groups.Keys| == 1 {
      SingletonChoice(groups.Keys);
    }
  }
}
