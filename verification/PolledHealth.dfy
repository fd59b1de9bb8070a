/**
 The border-router and network rules of the health engine, read right after a completed polling
 round of the collector.
 */
module PolledHealth {
  import opened Containers
  import opened OtbrCollector
  import Health = HealthEngine
  import Rollup = HealthRollup

  /** The stored border routers are the collector's, as far as these rules look. */
  ghost predicate StoredAre(stored: seq<Health.Otbr>, known: map<string, Otbr>, ids: seq<string>) {
    forall id :: id in ids ==> (id in Health.ById(stored) <==> id in known)
  }

  ghost predicate SameView(stored: seq<Health.Otbr>, known: map<string, Otbr>) {
    forall id :: id in Health.ById(stored) && id in known ==>
      && Health.ById(stored)[id].reachable == known[id].reachable
      && Health.ById(stored)[id].extPanId == known[id].snapshot.extPanId
  }

  /** The stored networks are among the collector's. */
  ghost predicate NetworksAre(stored: seq<Health.Network>, known: map<string, Network>) {
    forall i :: 0 <= i < |stored| ==>
      && stored[i].extPanId in known
      && stored[i].visible == known[stored[i].extPanId].visible
      && stored[i].classification == known[stored[i].extPanId].classification
  }

  lemma GroupsAreTheIds(config: Health.Config, stored: seq<Health.Otbr>, otbrs: map<string, Otbr>, groups: Groups)
    requires StoredAre(stored, otbrs, config.otbrs) && SameView(stored, otbrs)
    requires forall ext :: GroupIs(groups, ext, MembersOf(otbrs, config.otbrs, ext))
    ensures Health.ExtPanIds(config, stored) == groups.Keys
  {
    var byId, configured := Health.ById(stored), Health.ConfiguredIds(config, stored);
    forall ext | ext in groups ensures ext in Health.ExtPanIds(config, stored) {
      assert GroupIs(groups, ext, MembersOf(otbrs, config.otbrs, ext));
      var id :| id in MembersOf(otbrs, config.otbrs, ext);
      assert id in configured && Health.OnNetwork(byId[id]) && byId[id].extPanId.value == ext;
    }
    forall ext | ext in Health.ExtPanIds(config, stored) ensures ext in groups {
      var id :| id in configured && Health.OnNetwork(byId[id]) && byId[id].extPanId.value == ext;
      assert On(otbrs, id, ext);
      assert id in MembersOf(otbrs, config.otbrs, ext);
      assert GroupIs(groups, ext, MembersOf(otbrs, config.otbrs, ext));
    }
  }

  lemma UnknownNeedsGroups(stored: seq<Health.Network>, before: map<string, Network>, after: map<string, Network>,
                           otbrs: map<string, Otbr>, groups: Groups, now: int)
    requires Synced(before, after, otbrs, groups, now) && NetworksAre(stored, after)
    ensures Health.UnknownVisible(stored) ==> groups.Keys != {}
  {
    VisibleAreTheGroups(before, after, otbrs, groups, now);
    if Health.UnknownVisible(stored) {
      var i :| 0 <= i < |stored| && stored[i].visible && stored[i].classification == Unknown;
      assert stored[i].extPanId in Visible(after);
    }
  }

  lemma GroupsNeedRouters(known: map<string, Otbr>, log: Transitions, ids: seq<string>, polls: seq<Poll>)
    requires |ids| == |polls|
    ensures ids == [] ==> PollRound(known, log, ids, polls).groups == map[]
  {
  }

  /**
   After a completed round, a visible network of unknown class implies an extended PAN id on a
   reachable configured router. So the unknown-primary rule warns, and the disagreement rule
   degrades, exactly when the round saw two extended PAN ids; the other arm of the former never holds.
   */
  lemma {:induction false} RulesAfterARound(
      config: Health.Config, stored: seq<Health.Otbr>, networks: seq<Health.Network>,
      known: map<string, Otbr>, log: Transitions, polls: seq<Poll>,
      before: map<string, Network>, after: map<string, Network>, now: int)
    requires |config.otbrs| == |polls| && Unique(config.otbrs)
    requires var r := PollRound(known, log, config.otbrs, polls);
             && Synced(before, after, r.otbrs, r.groups, now)
             && StoredAre(stored, r.otbrs, config.otbrs) && SameView(stored, r.otbrs) && NetworksAre(networks, after)
    ensures var groups := PollRound(known, log, config.otbrs, polls).groups;
            && Health.ExtPanIds(config, stored) == groups.Keys
            && !(Health.ExtPanIds(config, stored) == {} && Health.UnknownVisible(networks))
            && Health.PrimaryUnknownHealth(config, stored, networks).state ==
                 (if |groups.Keys| >= 2 then Rollup.Warning else Rollup.Healthy)
            && Health.DisagreementHealth(config, stored).state ==
                 (if |groups.Keys| >= 2 then Rollup.Degraded else Rollup.Healthy)
  {
    var r := PollRound(known, log, config.otbrs, polls);
    forall ext ensures GroupIs(r.groups, ext, MembersOf(r.otbrs, config.otbrs, ext)) {
      GroupsAreMembers(known, log, config.otbrs, polls, ext);
    }
    GroupsAreTheIds(config, stored, r.otbrs, r.groups);
    UnknownNeedsGroups(networks, before, after, r.otbrs, r.groups, now);
    GroupsNeedRouters(known, log, config.otbrs, polls);
    Health.PrimaryUnknownWarns(config, stored, networks);
    Health.DisagreementIsDegraded(config, stored);
  }
}
