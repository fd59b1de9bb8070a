/**
 From stored mDNS and TREL events to the flap counts the health rules read.
 */
module ServiceFlaps {
  import opened MdnsObserver
  import opened MdnsEvents
  import Health = HealthEngine

  /** A stored transition as the event log holds it. */
  function AsEvent(t: Transition): Health.LogEvent {
    Health.LogEvent(EventName(t.layer, t.kind), t.at as real, t.initial)
  }

  function AsLog(stored: seq<Transition>): seq<Health.LogEvent> {
    seq(|stored|, i requires 0 <= i < |stored| => AsEvent(stored[i]))
  }

  function FlapKinds(layer: Layer): seq<string> {
    if layer.Mdns? then Health.MDNS_FLAP_EVENTS else Health.TREL_FLAP_EVENTS
  }

  lemma FlapNames(layer: Layer)
    ensures FlapKinds(layer) == [EventName(layer, Added), EventName(layer, Removed)]
  {
    assert "mdns" + ".service_added" == "mdns.service_added" && "mdns" + ".service_removed" == "mdns.service_removed";
    assert "trel" + ".service_added" == "trel.service_added" && "trel" + ".service_removed" == "trel.service_removed";
  }

  predicate IsCounted(t: Transition, layer: Layer, services: set<string>, since: int) {
    t.layer == layer && !t.kind.Changed? && !t.initial && t.serviceId in services && since <= t.at
  }

  /** Stored flaps of some services since a time. */
  function FlapsAmong(stored: seq<Transition>, layer: Layer, services: set<string>, since: int): nat {
    if stored == [] then 0 else
    FlapsAmong(stored[..|stored| - 1], layer, services, since)
    + if IsCounted(stored[|stored| - 1], layer, services, since) then 1 else 0
  }

  /** Everything stored since then belongs to one of the services. */
  predicate AllFrom(stored: seq<Transition>, layer: Layer, services: set<string>, since: int) {
    forall i :: 0 <= i < |stored| && stored[i].layer == layer && stored[i].at >= since ==>
        stored[i].serviceId in services
  }

  /** Nothing is stored with a later time. */
  predicate NotLater(stored: seq<Transition>, now: int) {
    forall i :: 0 <= i < |stored| ==> stored[i].at <= now
  }

  lemma IsFlapEvent(t: Transition, layer: Layer, services: set<string>, since: int)
    requires t.layer == layer && t.at >= since ==> t.serviceId in services
    ensures Health.IsFlap(AsEvent(t), FlapKinds(layer), since as real) <==> IsCounted(t, layer, services, since)
  {
    FlapNames(layer);
    EventNamesDiffer(t.layer, t.kind, layer, Added);
    EventNamesDiffer(t.layer, t.kind, layer, Removed);
  }

  lemma {:induction false} HealthCountsFlaps(stored: seq<Transition>, layer: Layer, services: set<string>, since: int)
    requires AllFrom(stored, layer, services, since)
    ensures Health.Flaps(AsLog(stored), FlapKinds(layer), since as real) == FlapsAmong(stored, layer, services, since)
    decreases |stored|
  {
    if stored != [] {
      var n := |stored| - 1;
      HealthCountsFlaps(stored[..n], layer, services, since);
      IsFlapEvent(stored[n], layer, services, since);
      assert AsLog(stored)[..n] == AsLog(stored[..n]);
    }
  }

  /** One service's share of the count is `CountFlaps` over the window up to `now`. */
  lemma {:induction false} OneServiceApart(stored: seq<Transition>, layer: Layer, services: set<string>, id: string,
      since: int, now: int)
    requires id in services && NotLater(stored, now)
    ensures FlapsAmong(stored, layer, services, since) ==
              CountFlaps(stored, layer, id, since, now) + FlapsAmong(stored, layer, services - {id}, since)
    decreases |stored|
  {
    if stored != [] {
      OneServiceApart(stored[..|stored| - 1], layer, services, id, since, now);
    }
  }

  lemma {:induction false} NoServicesNoFlaps(stored: seq<Transition>, layer: Layer, since: int)
    ensures FlapsAmong(stored, layer, {}, since) == 0
    decreases |stored|
  {
    if stored != [] {
      NoServicesNoFlaps(stored[..|stored| - 1], layer, since);
    }
  }

  lemma {:induction false} FlapsAreBounded(decided: seq<Transition>, debounce: nat, layer: Layer, services: set<string>,
      since: int, width: nat)
    requires debounce > 0 && NotLater(Passed(decided, debounce), since + width)
    ensures FlapsAmong(Passed(decided, debounce), layer, services, since) <= |services| * (2 * (width / debounce + 1))
    decreases |services|
  {
    var stored, bound := Passed(decided, debounce), 2 * (width / debounce + 1);
    if services == {} {
      NoServicesNoFlaps(stored, layer, since);
    } else {
      var id :| id in services;
      OneServiceApart(stored, layer, services, id, since, since + width);
      FlapBound(decided, debounce, layer, id, since, width);
      FlapsAreBounded(decided, debounce, layer, services - {id}, since, width);
      assert |services| * bound == |services - {id}| * bound + bound;
    }
  }

  /**
   The flap count that the health rules read an hour later is at most `2 * (3600 / D + 1)` for every
   service that stored something in that hour, with debounce time `D`.
   */
  lemma {:induction false} HealthFlapsAreBounded(decided: seq<Transition>, debounce: nat, layer: Layer,
      services: set<string>, now: int)
    requires debounce > 0 && NotLater(Passed(decided, debounce), now)
    requires AllFrom(Passed(decided, debounce), layer, services, now - 3600)
    ensures Health.Flaps(AsLog(Passed(decided, debounce)), FlapKinds(layer), (now - 3600) as real)
         <= |services| * (2 * (3600 / debounce + 1))
  {
    HealthCountsFlaps(Passed(decided, debounce), layer, services, now - 3600);
    FlapsAreBounded(decided, debounce, layer, services, now - 3600, 3600);
  }
}
