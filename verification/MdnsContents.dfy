/**
 What the mDNS and TREL caches hold of each service, told from the callbacks alone: the last advert,
 the last time, and which callbacks decide a transition.
 */
module MdnsContents {
  import opened Containers
  import opened MdnsObserver
  import opened MdnsOverlap

  /** Equal in all that counts as a change: host name, addresses in any order, port and TXT record. */
  predicate SameAdvert(a: Advert, b: Advert) {
    a.hostname == b.hostname && multiset(a.addresses) == multiset(b.addresses) && a.port == b.port && a.txt == b.txt
  }

  /** The record of the last callback that brought one for the service. */
  function LastRecord(inputs: seq<Input>, id: string): Option<Record> {
    if inputs == [] then None else
    var last := inputs[|inputs| - 1];
    if !last.Gone? && last.record.serviceId == id then Some(last.record) else LastRecord(inputs[..|inputs| - 1], id)
  }

  /** The time of the last callback about the service. */
  function LastTime(inputs: seq<Input>, id: string): Option<int> {
    if inputs == [] then None else
    var last := inputs[|inputs| - 1];
    if last.Id() == id then Some(last.at) else LastTime(inputs[..|inputs| - 1], id)
  }

  // ----- one callback -----

  predicate Visible(view: View, id: string) {
    id in view.mdns && view.mdns[id].presence.visible
  }

  /** The service is cached with what the record advertises. */
  predicate Holds(view: View, record: Record) {
    record.serviceId in view.mdns && SameAdvert(view.mdns[record.serviceId].advert, record.advert)
  }

  lemma ComparesAdverts(service: Service, record: Record)
    ensures RecordChanged(service, record) <==> !SameAdvert(service.advert, record.advert)
  {
  }

  /** A callback that brings a record decides "changed", "added" or nothing. */
  lemma {:induction false} RecordDecides(view: View, isTrel: string -> bool, input: Input)
    requires !input.Gone?
    ensures var id, record := input.record.serviceId, input.record;
            History(Step(view, isTrel, input).decided, Mdns, id) == History(view.decided, Mdns, id) +
              if Visible(view, id) then
                if Holds(view, record) then [] else [Transition(Mdns, id, Changed, false, input.at)]
              else
                if input.Refreshed? && Holds(view, record) then []
                else [Transition(Mdns, id, Added, id !in view.mdns, input.at)]
  {
    StepHistory(view, isTrel, input, input.record.serviceId);
    if input.record.serviceId in view.mdns {
      ComparesAdverts(view.mdns[input.record.serviceId], input.record);
    }
  }

  /** A removal decides "removed" exactly for a visible service. */
  lemma {:induction false} RemovalDecides(view: View, isTrel: string -> bool, input: Input)
    requires input.Gone?
    ensures var id := input.serviceId;
            History(Step(view, isTrel, input).decided, Mdns, id) == History(view.decided, Mdns, id) +
              if Visible(view, id) then [Transition(Mdns, id, Removed, false, input.at)] else []
  {
    StepHistory(view, isTrel, input, input.serviceId);
  }

  /** Whether a callback takes the whole record over, type and instance name included. */
  lemma {:induction false} RecordStored(view: View, isTrel: string -> bool, input: Input)
    requires !input.Gone?
    ensures var id, record := input.record.serviceId, input.record; var next := Step(view, isTrel, input);
            && next.mdns.Keys == view.mdns.Keys + {id}
            && next.mdns[id].presence.visible == (!Holds(view, record) || Visible(view, id) || input.Found?)
            && if Holds(view, record) && (Visible(view, id) || input.Refreshed?)
               then next.mdns[id].advert == view.mdns[id].advert &&
                    next.mdns[id].serviceType == view.mdns[id].serviceType
               else next.mdns[id].advert == record.advert && next.mdns[id].serviceType == record.serviceType
  {
    if input.record.serviceId in view.mdns {
      ComparesAdverts(view.mdns[input.record.serviceId], input.record);
    }
  }

  // ----- whole runs -----

  /** The cached service has the last record's advert and the last callback's time. */
  predicate Current(view: View, inputs: seq<Input>, id: string) {
    && (id in view.mdns <==> LastRecord(inputs, id).Some?)
    && (id in view.mdns ==>
          && SameAdvert(view.mdns[id].advert, LastRecord(inputs, id).value.advert)
          && LastTime(inputs, id) == Some(view.mdns[id].presence.lastSeen))
  }

  lemma OtherRow(view: View, isTrel: string -> bool, input: Input, id: string)
    requires id != input.Id()
    ensures Get(Step(view, isTrel, input).mdns, id) == Get(view.mdns, id)
  {
  }

  lemma RemovedRow(view: View, isTrel: string -> bool, input: Input)
    requires input.Gone?
    ensures var id, next := input.serviceId, Step(view, isTrel, input);
            && (id in next.mdns <==> id in view.mdns)
            && (id in next.mdns ==>
                  next.mdns[id].advert == view.mdns[id].advert && next.mdns[id].presence.lastSeen == input.at)
  {
  }

  lemma RecordRow(view: View, isTrel: string -> bool, input: Input)
    requires !input.Gone?
    ensures var id, next := input.record.serviceId, Step(view, isTrel, input);
            && id in next.mdns && next.mdns[id].presence.lastSeen == input.at
            && SameAdvert(next.mdns[id].advert, input.record.advert)
  {
    if input.record.serviceId in view.mdns {
      ComparesAdverts(view.mdns[input.record.serviceId], input.record);
    }
  }

  /**
   In every run: a service is cached exactly if a callback brought a record of it, with the advert of
   the last such record (but for what does not count as a change) and the time of the last callback
   about it.
   */
  lemma {:induction false} CacheHoldsTheLastRecord(inputs: seq<Input>, isTrel: string -> bool, id: string)
    ensures Current(Run(inputs, isTrel), inputs, id)
  {
    if inputs != [] {
      var before, input := inputs[..|inputs| - 1], inputs[|inputs| - 1];
      CacheHoldsTheLastRecord(before, isTrel, id);
      if input.Id() != id {
        OtherRow(Run(before, isTrel), isTrel, input, id);
      } else if input.Gone? {
        RemovedRow(Run(before, isTrel), isTrel, input);
      } else {
        RecordRow(Run(before, isTrel), isTrel, input);
      }
    }
  }

  /** Where the mirror holds, so does a TREL row. */
  lemma {:induction false} TrelHoldsTheLastRecord(inputs: seq<Input>, isTrel: string -> bool,
      trelIds: set<string>, id: string)
    requires Mirrors(Run(inputs, isTrel), trelIds)
    ensures var view := Run(inputs, isTrel);
            && (id in view.trel <==> LastRecord(inputs, id).Some? && id in trelIds)
            && (id in view.trel ==> SameAdvert(view.trel[id].advert, LastRecord(inputs, id).value.advert))
  {
    CacheHoldsTheLastRecord(inputs, isTrel, id);
  }

  // ----- when a TREL row was last seen -----

  predicate TrelSeen(view: View, id: string) {
    var log := History(view.decided, Trel, id);
    (id in view.trel <==> log != []) && (id in view.trel ==> view.trel[id].presence.lastSeen == log[|log| - 1].at)
  }

  lemma MdnsHalfKeepsSeen(view: View, input: Input, id: string)
    requires TrelSeen(view, id)
    ensures TrelSeen(HalfStep(view, MdnsHalf(input)), id)
  {
    MdnsIgnoresTrel(view, view, input);
    HalfHistory(view, MdnsHalf(input), Trel, id);
    HalfAppends(view, MdnsHalf(input));
    assert History(view.decided, Trel, id) + [] == History(view.decided, Trel, id);
  }

  lemma TrelHalfRow(view: View, half: Half)
    requires !half.MdnsHalf? && (half.TrelUpsert? ==> half.isNew || half.changed)
    ensures var id, d, next := About(half), HalfDecision(view, half), HalfStep(view, half);
            && (d.Some? <==> id in next.trel)
            && (d.Some? ==> next.trel[id].presence.lastSeen == d.value.at)
            && (d.None? ==> id !in view.trel)
  {
  }

  lemma TrelHalfKeepsSeen(view: View, half: Half, id: string)
    requires TrelSeen(view, id) && !half.MdnsHalf? && (half.TrelUpsert? ==> half.isNew || half.changed)
    ensures TrelSeen(HalfStep(view, half), id)
  {
    if About(half) == id {
      TrelHalfRow(view, half);
      SecondHalfLog(view, half, Trel, id);
    } else {
      HalfKeepsOtherRows(view, half, id);
      HalfKeepsOtherHistory(view, half, Trel, id);
    }
  }

  lemma OwnHalfChanges(view: View, isTrel: string -> bool, input: Input)
    ensures var half := TrelHalf(view, isTrel, input);
            half.Some? ==> !half.value.MdnsHalf? && (half.value.TrelUpsert? ==> half.value.isNew || half.value.changed)
  {
  }

  lemma StepKeepsSeen(view: View, isTrel: string -> bool, input: Input, id: string)
    requires TrelSeen(view, id)
    ensures TrelSeen(Step(view, isTrel, input), id)
  {
    var half, first := TrelHalf(view, isTrel, input), HalfStep(view, MdnsHalf(input));
    HalvesMakeAStep(view, isTrel, input);
    MdnsHalfKeepsSeen(view, input, id);
    OwnHalfChanges(view, isTrel, input);
    if half.Some? {
      TrelHalfKeepsSeen(first, half.value, id);
    }
  }

  /** In every run the last-seen time of a TREL row is that of its latest TREL transition. */
  lemma {:induction false} TrelSeenAtItsTransitions(inputs: seq<Input>, isTrel: string -> bool, id: string)
    ensures TrelSeen(Run(inputs, isTrel), id)
  {
    if inputs != [] {
      TrelSeenAtItsTransitions(inputs[..|inputs| - 1], isTrel, id);
      StepKeepsSeen(Run(inputs[..|inputs| - 1], isTrel), isTrel, inputs[|inputs| - 1], id);
    }
  }
}
