/**
 The mDNS observer: one visibility state machine per service, with a second one for the TREL
 services that is meant to mirror the first. Every transition is decided first and recorded in
 `decided`; only those the debouncer lets through reach the stored event log `events`.
 */
module MdnsObserver {
  import opened Containers
  import opened Debounce

  /** What a service advertises about itself. */
  datatype Advert = Advert(
    instanceName: string, hostname: Option<string>, addresses: seq<string>, port: Option<int>, txt: map<string, string>)

  datatype Record = Record(serviceId: string, serviceType: string, advert: Advert)

  datatype Presence = Presence(
    visible: bool, firstSeen: Option<int>, lastSeen: int, lastChanged: Option<int>, changeCount: nat)

  datatype Service = Service(serviceType: string, advert: Advert, presence: Presence)

  datatype TrelService = TrelService(advert: Advert, presence: Presence)

  datatype Layer = Mdns | Trel
  datatype Kind = Added | Changed | Removed
  datatype Transition = Transition(layer: Layer, serviceId: string, kind: Kind, initial: bool, at: int)

  /** The two caches and every transition decided so far. */
  datatype View = View(mdns: map<string, Service>, trel: map<string, TrelService>, decided: seq<Transition>)

  /** Instance names, address order and the times of observation do not count as a change. */
  predicate RecordChanged(previous: Service, record: Record) {
    var a, b := previous.advert, record.advert;
    a.hostname != b.hostname || multiset(a.addresses) != multiset(b.addresses) || a.port != b.port || a.txt != b.txt
  }

  /** The counters shared by `build_mdns_state` and `build_trel_state`. */
  function BuildPresence(previous: Option<Presence>, now: int, visible: bool, changed: bool): Presence {
    var firstSeen := if previous.Some? && previous.value.firstSeen.Some? then previous.value.firstSeen else Some(now);
    var count := if previous.Some? then previous.value.changeCount else 0;
    var lastChanged := if previous.Some? then previous.value.lastChanged else None;
    if changed then Presence(visible, firstSeen, now, Some(now), count + 1)
    else Presence(visible, firstSeen, now, lastChanged, count)
  }

  function PresenceOf(previous: Option<Service>): Option<Presence> {
    if previous.Some? then Some(previous.value.presence) else None
  }

  function TrelPresenceOf(previous: Option<TrelService>): Option<Presence> {
    if previous.Some? then Some(previous.value.presence) else None
  }

  // ----- one step of the observer -----

  function Touch(view: View, id: string, now: int): View
    requires id in view.mdns
  {
    var s := view.mdns[id];
    view.(mdns := view.mdns[id := s.(presence := s.presence.(lastSeen := now))])
  }

  function UpsertTrel(view: View, record: Record, now: int, changed: bool, isNew: bool): View {
    var id := record.serviceId;
    var previous := Get(view.trel, id);
    var state := TrelService(record.advert, BuildPresence(TrelPresenceOf(previous), now, true, changed));
    view.(trel := view.trel[id := state],
          decided := view.decided +
            if isNew then [Transition(Trel, id, Added, previous.None?, now)]
            else if changed then [Transition(Trel, id, Changed, false, now)]
            else [])
  }

  function AddedStep(view: View, isTrel: string -> bool, record: Record, now: int): View {
    var id := record.serviceId;
    var previous := Get(view.mdns, id);
    var wasVisible := previous.Some? && previous.value.presence.visible;
    if wasVisible && !RecordChanged(previous.value, record) then Touch(view, id, now) else
    var next := Store(view, record, now, previous, wasVisible);
    if isTrel(record.serviceType) then UpsertTrel(next, record, now, wasVisible, !wasVisible) else next
  }

  /** The new state of a service and the transition to it. */
  function Store(view: View, record: Record, now: int, previous: Option<Service>, changed: bool): View {
    var id := record.serviceId;
    var state := Service(record.serviceType, record.advert, BuildPresence(PresenceOf(previous), now, true, changed));
    var kind := if changed then Changed else Added;
    view.(mdns := view.mdns[id := state],
          decided := view.decided + [Transition(Mdns, id, kind, kind.Added? && previous.None?, now)])
  }

  function UpdatedStep(view: View, isTrel: string -> bool, record: Record, now: int): View {
    var previous := Get(view.mdns, record.serviceId);
    if previous.Some? && !RecordChanged(previous.value, record) then Touch(view, record.serviceId, now)
    else AddedStep(view, isTrel, record, now)
  }

  function Hide(presence: Presence, now: int): Presence {
    presence.(visible := false, lastSeen := now)
  }

  function HideTrel(view: View, id: string, now: int): View {
    if id !in view.trel then view else
    var t := view.trel[id];
    view.(trel := view.trel[id := t.(presence := Hide(t.presence, now))],
          decided := view.decided + [Transition(Trel, id, Removed, false, now)])
  }

  function RemovedStep(view: View, isTrel: string -> bool, id: string, serviceType: string, now: int): View {
    if id !in view.mdns then view
    else if !view.mdns[id].presence.visible then Touch(view, id, now)
    else
      var s := view.mdns[id];
      var next := view.(
        mdns := view.mdns[id := s.(presence := Hide(s.presence, now))],
        decided := view.decided + [Transition(Mdns, id, Removed, false, now)]);
      if isTrel(serviceType) then HideTrel(next, id, now) else next
  }

  // ----- debouncing of decided transitions -----

  function EventName(layer: Layer, kind: Kind): string {
    (if layer.Mdns? then "mdns" else "trel") +
    match kind
    case Added => ".service_added"
    case Changed => ".service_changed"
    case Removed => ".service_removed"
  }

  function CallOf(t: Transition): Call {
    Call(t.serviceId + ":" + EventName(t.layer, t.kind), t.at)
  }

  function Calls(decided: seq<Transition>): seq<Call> {
    if decided == [] then [] else Calls(decided[..|decided| - 1]) + [CallOf(decided[|decided| - 1])]
  }

  /** The transitions that pass the debouncer and are stored as events. */
  function Passed(decided: seq<Transition>, debounce: nat): seq<Transition> {
    if decided == [] then [] else
    var before, t := decided[..|decided| - 1], decided[|decided| - 1];
    Passed(before, debounce) + if Emits(LastAfter(Calls(before), debounce), debounce, CallOf(t)) then [t] else []
  }

  lemma DecideOne(decided: seq<Transition>, t: Transition, debounce: nat)
    ensures Calls(decided + [t]) == Calls(decided) + [CallOf(t)]
    ensures LastAfter(Calls(decided + [t]), debounce) ==
              Observe(LastAfter(Calls(decided), debounce), debounce, CallOf(t))
    ensures Passed(decided + [t], debounce) == Passed(decided, debounce) +
              if Emits(LastAfter(Calls(decided), debounce), debounce, CallOf(t)) then [t] else []
  {
    assert (decided + [t])[..|decided|] == decided;
    assert (Calls(decided) + [CallOf(t)])[..|Calls(decided)|] == Calls(decided);
  }

  class Observer {
    const debouncer: EventDebouncer
    const isTrel: string -> bool
    var knownMdns: map<string, Service>
    var knownTrel: map<string, TrelService>
    var events: seq<Transition>
    ghost var decided: seq<Transition>

    ghost predicate Valid()
      reads this, debouncer
    {
      && debouncer.lastEventAt == LastAfter(Calls(decided), debouncer.debounce)
      && events == Passed(decided, debouncer.debounce)
    }

    ghost function Snapshot(): View
      reads this
    {
      View(knownMdns, knownTrel, decided)
    }

    constructor (debounce: nat, isTrel: string -> bool)
      ensures Valid() && fresh(debouncer) && Snapshot() == View(map[], map[], [])
      ensures this.isTrel == isTrel && debouncer.debounce == debounce
    {
      this.isTrel := isTrel;
      debouncer := new EventDebouncer(debounce);
      knownMdns, knownTrel, events, decided := map[], map[], [], [];
    }

    method Emit(layer: Layer, id: string, kind: Kind, initial: bool, now: int)
      requires Valid()
      modifies this`events, this`decided, debouncer
      ensures Valid()
      ensures decided == old(decided) + [Transition(layer, id, kind, initial, now)]
    {
      var t := Transition(layer, id, kind, initial, now);
      var pass := debouncer.ShouldEmit(id + ":" + EventName(layer, kind), now);
      if pass {
        events := events + [t];
      }
      decided := decided + [t];
      DecideOne(old(decided), t, debouncer.debounce);
    }

    method ProcessServiceAdded(record: Record, now: int)
      requires Valid()
      modifies this, debouncer
      ensures Valid() && Snapshot() == AddedStep(old(Snapshot()), isTrel, record, now)
    {
      var id := record.serviceId;
      var previous := Get(knownMdns, id);
      if previous.Some? && previous.value.presence.visible && !RecordChanged(previous.value, record) {
        var touched := previous.value.presence.(lastSeen := now);
        knownMdns := knownMdns[id := previous.value.(presence := touched)];
        return;
      }
      var changed := previous.Some? && previous.value.presence.visible && RecordChanged(previous.value, record);
      StoreService(record, now, previous, changed);
      if isTrel(record.serviceType) {
        UpsertTrelService(record, now, changed, previous.None? || !previous.value.presence.visible);
      }
    }

    /** The part of `process_service_added` for the service itself. */
    method StoreService(record: Record, now: int, previous: Option<Service>, changed: bool)
      requires Valid()
      modifies this, debouncer
      ensures Valid() && Snapshot() == Store(old(Snapshot()), record, now, previous, changed)
    {
      var id := record.serviceId;
      var presence := BuildPresence(PresenceOf(previous), now, true, changed);
      knownMdns := knownMdns[id := Service(record.serviceType, record.advert, presence)];
      var kind := if changed then Changed else Added;
      Emit(Mdns, id, kind, kind == Added && previous == None, now);
    }

    method UpsertTrelService(record: Record, now: int, changed: bool, isNew: bool)
      requires Valid()
      modifies this, debouncer
      ensures Valid() && Snapshot() == UpsertTrel(old(Snapshot()), record, now, changed, isNew)
    {
      var id := record.serviceId;
      var previous := Get(knownTrel, id);
      var presence := BuildPresence(TrelPresenceOf(previous), now, true, changed);
      knownTrel := knownTrel[id := TrelService(record.advert, presence)];
      if isNew {
        Emit(Trel, id, Added, previous == None, now);
      } else if changed {
        Emit(Trel, id, Changed, false, now);
      }
    }

    method ProcessServiceUpdated(record: Record, now: int)
      requires Valid()
      modifies this, debouncer
      ensures Valid() && Snapshot() == UpdatedStep(old(Snapshot()), isTrel, record, now)
    {
      var previous := Get(knownMdns, record.serviceId);
      if previous.Some? && !RecordChanged(previous.value, record) {
        var touched := previous.value.presence.(lastSeen := now);
        knownMdns := knownMdns[record.serviceId := previous.value.(presence := touched)];
        return;
      }
      ProcessServiceAdded(record, now);
    }

    method ProcessServiceRemoved(id: string, serviceType: string, now: int)
      requires Valid()
      modifies this, debouncer
      ensures Valid() && Snapshot() == RemovedStep(old(Snapshot()), isTrel, id, serviceType, now)
    {
      var previous := Get(knownMdns, id);
      if previous == None {
        return;
      }
      if !previous.value.presence.visible {
        var touched := previous.value.presence.(lastSeen := now);
        knownMdns := knownMdns[id := previous.value.(presence := touched)];
        return;
      }
      knownMdns := knownMdns[id := previous.value.(presence := Hide(previous.value.presence, now))];
      Emit(Mdns, id, Removed, false, now);
      if isTrel(serviceType) {
        var trelPrevious := Get(knownTrel, id);
        if trelPrevious != None {
          knownTrel := knownTrel[id := trelPrevious.value.(presence := Hide(trelPrevious.value.presence, now))];
          Emit(Trel, id, Removed, false, now);
        }
      }
    }
  }

  // ----- whole runs -----

  datatype Input =
    | Found(record: Record, at: int)
    | Refreshed(record: Record, at: int)
    | Gone(serviceId: string, serviceType: string, at: int)
  {
    function Id(): string {
      if Gone? then serviceId else record.serviceId
    }
    function Type(): string {
      if Gone? then serviceType else record.serviceType
    }
  }

  function Step(view: View, isTrel: string -> bool, input: Input): View {
    match input
    case Found(record, at) => AddedStep(view, isTrel, record, at)
    case Refreshed(record, at) => UpdatedStep(view, isTrel, record, at)
    case Gone(id, serviceType, at) => RemovedStep(view, isTrel, id, serviceType, at)
  }

  function Run(inputs: seq<Input>, isTrel: string -> bool): View {
    if inputs == [] then View(map[], map[], [])
    else Step(Run(inputs[..|inputs| - 1], isTrel), isTrel, inputs[|inputs| - 1])
  }

  /** The transitions of one service in one layer, oldest first. */
  function History(log: seq<Transition>, layer: Layer, id: string): seq<Transition> {
    if log == [] then [] else
    var t := log[|log| - 1];
    History(log[..|log| - 1], layer, id) + if t.layer == layer && t.serviceId == id then [t] else []
  }

  lemma HistoryAppend(log: seq<Transition>, t: Transition, layer: Layer, id: string)
    ensures History(log + [t], layer, id) ==
              History(log, layer, id) + if t.layer == layer && t.serviceId == id then [t] else []
  {
    assert (log + [t])[..|log|] == log;
  }

  /** Appearances and disappearances only. */
  function Flips(history: seq<Transition>): seq<Transition> {
    if history == [] then [] else
    var t := history[|history| - 1];
    Flips(history[..|history| - 1]) + if t.kind.Changed? then [] else [t]
  }

  function ChangeTimes(history: seq<Transition>): seq<int> {
    if history == [] then [] else
    var t := history[|history| - 1];
    ChangeTimes(history[..|history| - 1]) + if t.kind.Changed? then [t.at] else []
  }

  predicate Alternates(flips: seq<Transition>) {
    forall i :: 0 <= i < |flips| ==> flips[i].kind == if i % 2 == 0 then Added else Removed
  }

  predicate IsVisible(presence: Option<Presence>) {
    presence.Some? && presence.value.visible
  }

  /** What the cached presence of a service, if any, must say about the history of that service. */
  predicate PresenceTells(presence: Option<Presence>, history: seq<Transition>) {
    && (presence.Some? <==> history != [])
    && (IsVisible(presence) <==> |Flips(history)| % 2 == 1)
    && (presence.Some? ==>
          var p, changes := presence.value, ChangeTimes(history);
          && p.firstSeen == Some(history[0].at)
          && p.changeCount == |changes|
          && p.lastChanged == if changes == [] then None else Some(changes[|changes| - 1]))
  }

  predicate WellFormedHistory(history: seq<Transition>) {
    && (history != [] ==> history[0].kind == Added)
    && Alternates(Flips(history))
    && (forall i :: 0 <= i < |history| ==> (history[i].initial <==> i == 0))
  }

  predicate Lifecycle(view: View, id: string) {
    var history := History(view.decided, Mdns, id);
    WellFormedHistory(history) && PresenceTells(PresenceOf(Get(view.mdns, id)), history)
  }

  lemma GrowHistory(history: seq<Transition>, t: Transition)
    ensures Flips(history + [t]) == Flips(history) + if t.kind.Changed? then [] else [t]
    ensures ChangeTimes(history + [t]) == ChangeTimes(history) + if t.kind.Changed? then [t.at] else []
  {
    assert (history + [t])[..|history|] == history;
  }

  /** The mDNS transition an input decides, if any. */
  function Decision(view: View, input: Input): Option<Transition> {
    var id := input.Id();
    var known := id in view.mdns;
    var visible := known && view.mdns[id].presence.visible;
    if input.Gone? then (if visible then Some(Transition(Mdns, id, Removed, false, input.at)) else None)
    else if known && !RecordChanged(view.mdns[id], input.record) && (visible || input.Refreshed?) then None
    else Some(Transition(Mdns, id, if visible then Changed else Added, !known, input.at))
  }

  function ListOf(t: Option<Transition>): seq<Transition> {
    if t.Some? then [t.value] else []
  }

  /** A step decides at most one mDNS transition, then at most one TREL transition. */
  lemma StepAppends(view: View, isTrel: string -> bool, input: Input) returns (trel: Option<Transition>)
    ensures Step(view, isTrel, input).decided == view.decided + ListOf(Decision(view, input)) + ListOf(trel)
    ensures trel.Some? ==> trel.value.layer == Trel
  {
    var middle, after := view.decided + ListOf(Decision(view, input)), Step(view, isTrel, input).decided;
    trel := if |after| > |middle| then Some(after[|middle|]) else None;
  }

  lemma HistoryOfTwo(log: seq<Transition>, mdns: Option<Transition>, trel: Option<Transition>, id: string)
    requires mdns.Some? ==> mdns.value.layer == Mdns
    requires trel.Some? ==> trel.value.layer == Trel
    ensures History(log + ListOf(mdns) + ListOf(trel), Mdns, id) ==
              History(log, Mdns, id) + if mdns.Some? && mdns.value.serviceId == id then ListOf(mdns) else []
  {
    var middle := log + ListOf(mdns);
    if mdns.Some? {
      HistoryAppend(log, mdns.value, Mdns, id);
    } else {
      assert middle == log;
    }
    if trel.Some? {
      HistoryAppend(middle, trel.value, Mdns, id);
    } else {
      assert middle + [] == middle;
    }
  }

  lemma StepHistory(view: View, isTrel: string -> bool, input: Input, id: string)
    ensures var d := Decision(view, input);
            History(Step(view, isTrel, input).decided, Mdns, id) ==
              History(view.decided, Mdns, id) + if d.Some? && d.value.serviceId == id then ListOf(d) else []
  {
    var trel := StepAppends(view, isTrel, input);
    HistoryOfTwo(view.decided, Decision(view, input), trel, id);
  }

  /** The presence a transition leaves behind. */
  function After(presence: Option<Presence>, t: Transition): Presence
    requires t.kind.Removed? ==> presence.Some?
  {
    if t.kind.Removed? then Hide(presence.value, t.at) else BuildPresence(presence, t.at, true, t.kind.Changed?)
  }

  predicate CanFollow(presence: Option<Presence>, t: Transition) {
    (t.initial <==> presence.None?) && (t.kind == Added <==> !IsVisible(presence))
  }

  /** How a step changes the presence of one service. */
  predicate PresenceStep(before: Option<Service>, after: Option<Service>, d: Option<Transition>, id: string, at: int) {
    var old_, new_ := PresenceOf(before), PresenceOf(after);
    if d.Some? && d.value.serviceId == id
    then CanFollow(old_, d.value) && new_ == Some(After(old_, d.value))
    else old_ == new_ || (old_.Some? && new_.Some? && new_.value == old_.value.(lastSeen := at))
  }

  lemma AddedPresence(view: View, isTrel: string -> bool, record: Record, at: int, id: string)
    ensures PresenceStep(Get(view.mdns, id), Get(AddedStep(view, isTrel, record, at).mdns, id),
                         Decision(view, Found(record, at)), id, at)
  {
  }

  lemma RemovedPresence(view: View, isTrel: string -> bool, gone: string, serviceType: string, at: int, id: string)
    ensures PresenceStep(Get(view.mdns, id), Get(RemovedStep(view, isTrel, gone, serviceType, at).mdns, id),
                         Decision(view, Gone(gone, serviceType, at)), id, at)
  {
  }

  lemma StepPresence(view: View, isTrel: string -> bool, input: Input, id: string)
    ensures PresenceStep(Get(view.mdns, id), Get(Step(view, isTrel, input).mdns, id), Decision(view, input), id,
              input.at)
  {
    match input
    case Found(record, at) => AddedPresence(view, isTrel, record, at, id);
    case Refreshed(record, at) => AddedPresence(view, isTrel, record, at, id);
    case Gone(gone, serviceType, at) => RemovedPresence(view, isTrel, gone, serviceType, at, id);
  }

  /** Visibility tells which flip comes next. */
  lemma NextFlip(flips: seq<Transition>, t: Transition)
    requires Alternates(flips) && t.kind == if |flips| % 2 == 0 then Added else Removed
    ensures Alternates(flips + [t])
  {
  }

  lemma ExtendFlips(history: seq<Transition>, t: Transition, visible: bool)
    requires Alternates(Flips(history)) && (visible <==> |Flips(history)| % 2 == 1) && (t.kind == Added <==> !visible)
    ensures Alternates(Flips(history + [t]))
  {
    GrowHistory(history, t);
    if t.kind.Changed? {
      assert Flips(history) + [] == Flips(history);
    } else {
      NextFlip(Flips(history), t);
    }
  }

  lemma ExtendWellFormed(presence: Option<Presence>, history: seq<Transition>, t: Transition)
    requires WellFormedHistory(history) && PresenceTells(presence, history) && CanFollow(presence, t)
    ensures WellFormedHistory(history + [t])
  {
    ExtendFlips(history, t, IsVisible(presence));
    var next := history + [t];
    assert next[0] == if history == [] then t else history[0];
    forall i | 0 <= i < |next| ensures next[i].initial <==> i == 0 {
      assert next[i] == if i < |history| then history[i] else t;
    }
  }

  lemma ExtendChangeTimes(presence: Presence, history: seq<Transition>, t: Transition)
    requires var changes := ChangeTimes(history);
             && presence.changeCount == |changes|
             && presence.lastChanged == if changes == [] then None else Some(changes[|changes| - 1])
    requires t.kind.Changed?
    ensures var changes := ChangeTimes(history + [t]);
            |changes| == presence.changeCount + 1 && changes[|changes| - 1] == t.at
  {
    GrowHistory(history, t);
  }

  lemma ExtendPresence(presence: Option<Presence>, history: seq<Transition>, t: Transition)
    requires WellFormedHistory(history) && PresenceTells(presence, history) && CanFollow(presence, t)
    ensures PresenceTells(Some(After(presence, t)), history + [t])
  {
    GrowHistory(history, t);
    assert (history + [t])[0] == if history == [] then t else history[0];
    if t.kind.Changed? {
      ExtendChangeTimes(presence.value, history, t);
    } else {
      assert ChangeTimes(history) + [] == ChangeTimes(history);
    }
  }

  lemma StepKeepsLifecycle(view: View, isTrel: string -> bool, input: Input, id: string)
    requires Lifecycle(view, id)
    ensures Lifecycle(Step(view, isTrel, input), id)
  {
    var history, d := History(view.decided, Mdns, id), Decision(view, input);
    StepHistory(view, isTrel, input, id);
    StepPresence(view, isTrel, input, id);
    if d.Some? && d.value.serviceId == id {
      ExtendWellFormed(PresenceOf(Get(view.mdns, id)), history, d.value);
      ExtendPresence(PresenceOf(Get(view.mdns, id)), history, d.value);
    } else {
      assert history + [] == history;
    }
  }

  /**
   From an empty cache, every service appears and disappears in strict alternation starting with
   an appearance; it is visible exactly when the latest of these is an appearance; exactly its
   first transition is marked initial; its change counter and change time are those of its
   changed transitions; and the first-seen time is that of its first transition for ever.
   */
  lemma {:induction false} EveryServiceHasALifecycle(inputs: seq<Input>, isTrel: string -> bool, id: string)
    ensures Lifecycle(Run(inputs, isTrel), id)
  {
    if inputs != [] {
      EveryServiceHasALifecycle(inputs[..|inputs| - 1], isTrel, id);
      StepKeepsLifecycle(Run(inputs[..|inputs| - 1], isTrel), isTrel, inputs[|inputs| - 1], id);
    }
  }

  // ----- TREL mirrors mDNS -----

  /** A service id determines whether its service is TREL. */
  predicate IdsDetermineTrel(inputs: seq<Input>, isTrel: string -> bool, trelIds: set<string>) {
    forall i :: 0 <= i < |inputs| ==> (isTrel(inputs[i].Type()) <==> inputs[i].Id() in trelIds)
  }

  function TrelLog(log: seq<Transition>): seq<Transition> {
    if log == [] then [] else
    var t := log[|log| - 1];
    TrelLog(log[..|log| - 1]) + if t.layer.Trel? then [t] else []
  }

  /** The mDNS transitions of TREL services, relabelled as TREL transitions. */
  function Reflection(log: seq<Transition>, trelIds: set<string>): seq<Transition> {
    if log == [] then [] else
    var t := log[|log| - 1];
    Reflection(log[..|log| - 1], trelIds) +
      if t.layer.Mdns? && t.serviceId in trelIds then [t.(layer := Trel)] else []
  }

  predicate SameService(service: Service, trel: TrelService) {
    && service.advert == trel.advert
    && service.presence.(lastSeen := 0) == trel.presence.(lastSeen := 0)
  }

  predicate CachesMirror(mdns: map<string, Service>, trel: map<string, TrelService>, trelIds: set<string>) {
    && trel.Keys == mdns.Keys * trelIds
    && (forall id :: id in trel ==> SameService(mdns[id], trel[id]))
  }

  predicate Mirrors(view: View, trelIds: set<string>) {
    CachesMirror(view.mdns, view.trel, trelIds) && TrelLog(view.decided) == Reflection(view.decided, trelIds)
  }

  lemma MirrorAppend(log: seq<Transition>, t: Transition, trelIds: set<string>)
    ensures TrelLog(log + [t]) == TrelLog(log) + if t.layer.Trel? then [t] else []
    ensures Reflection(log + [t], trelIds) == Reflection(log, trelIds) +
              if t.layer.Mdns? && t.serviceId in trelIds then [t.(layer := Trel)] else []
  {
    assert (log + [t])[..|log|] == log;
  }

  /** A decided transition of a TREL service is followed at once by its TREL twin. */
  lemma StepDecides(view: View, isTrel: string -> bool, input: Input, trelIds: set<string>)
    requires CachesMirror(view.mdns, view.trel, trelIds) && (isTrel(input.Type()) <==> input.Id() in trelIds)
    ensures var d := Decision(view, input);
            Step(view, isTrel, input).decided == view.decided +
              if d.None? then [] else if input.Id() in trelIds then [d.value, d.value.(layer := Trel)] else [d.value]
  {
  }

  lemma AddedKeepsMirrored(view: View, isTrel: string -> bool, record: Record, at: int, trelIds: set<string>)
    requires CachesMirror(view.mdns, view.trel, trelIds) &&
               (isTrel(record.serviceType) <==> record.serviceId in trelIds)
    ensures var next := AddedStep(view, isTrel, record, at); CachesMirror(next.mdns, next.trel, trelIds)
  {
  }

  lemma TouchKeepsMirrored(view: View, id: string, at: int, trelIds: set<string>)
    requires CachesMirror(view.mdns, view.trel, trelIds) && id in view.mdns
    ensures var next := Touch(view, id, at); CachesMirror(next.mdns, next.trel, trelIds)
  {
  }

  lemma StepKeepsCachesMirrored(view: View, isTrel: string -> bool, input: Input, trelIds: set<string>)
    requires CachesMirror(view.mdns, view.trel, trelIds) && (isTrel(input.Type()) <==> input.Id() in trelIds)
    ensures var next := Step(view, isTrel, input); CachesMirror(next.mdns, next.trel, trelIds)
  {
    if input.Id() in view.mdns {
      TouchKeepsMirrored(view, input.Id(), input.at, trelIds);
    }
    if !input.Gone? {
      AddedKeepsMirrored(view, isTrel, input.record, input.at, trelIds);
    }
  }

  lemma DecideTwins(log: seq<Transition>, d: Option<Transition>, trelIds: set<string>)
    requires TrelLog(log) == Reflection(log, trelIds) && (d.Some? ==> d.value.layer.Mdns?)
    ensures var next := log + if d.None? then []
                              else if d.value.serviceId in trelIds then [d.value, d.value.(layer := Trel)]
                              else [d.value];
            TrelLog(next) == Reflection(next, trelIds)
  {
    if d.None? {
      assert log + [] == log;
    } else {
      var twin := d.value.(layer := Trel);
      MirrorAppend(log, d.value, trelIds);
      MirrorAppend(log + [d.value], twin, trelIds);
      assert log + [d.value, twin] == log + [d.value] + [twin];
    }
  }

  lemma StepKeepsMirror(view: View, isTrel: string -> bool, input: Input, trelIds: set<string>)
    requires Mirrors(view, trelIds) && (isTrel(input.Type()) <==> input.Id() in trelIds)
    ensures Mirrors(Step(view, isTrel, input), trelIds)
  {
    StepDecides(view, isTrel, input, trelIds);
    StepKeepsCachesMirrored(view, isTrel, input, trelIds);
    DecideTwins(view.decided, Decision(view, input), trelIds);
  }

  /**
   The type of an input that decides a transition agrees with its id: TREL for a TREL id, and for
   any other id not TREL, unless it is a removal.
   */
  predicate Fits(view: View, isTrel: string -> bool, input: Input, trelIds: set<string>) {
    Decision(view, input).Some? ==>
      if input.Id() in trelIds then isTrel(input.Type()) else isTrel(input.Type()) ==> input.Gone?
  }

  /** An input that fits acts as if its id alone decided whether it is TREL. */
  lemma FittingStep(view: View, isTrel: string -> bool, input: Input, trelIds: set<string>)
    requires CachesMirror(view.mdns, view.trel, trelIds) && Fits(view, isTrel, input, trelIds)
    ensures Step(view, isTrel, input) == Step(view, serviceType => input.Id() in trelIds, input)
  {
  }

  /** What a step appends for an input that does not fit: a transition without its twin, or a twin too many. */
  lemma MisfitDecides(view: View, isTrel: string -> bool, input: Input, trelIds: set<string>)
    requires CachesMirror(view.mdns, view.trel, trelIds) && !Fits(view, isTrel, input, trelIds)
    ensures var d, log := Decision(view, input), Step(view, isTrel, input).decided;
            && d.Some? && d.value.layer == Mdns && d.value.serviceId == input.Id()
            && if input.Id() in trelIds then log == view.decided + [d.value]
               else exists twin: Transition :: twin.layer == Trel && log == view.decided + [d.value] + [twin]
  {
    var d, log := Decision(view, input), Step(view, isTrel, input).decided;
    if input.Id() !in trelIds {
      var twin := log[|log| - 1];
      assert log == view.decided + [d.value] + [twin];
    }
  }

  lemma MisfitBreaksTheMirror(view: View, isTrel: string -> bool, input: Input, trelIds: set<string>)
    requires Mirrors(view, trelIds) && !Fits(view, isTrel, input, trelIds)
    ensures !Mirrors(Step(view, isTrel, input), trelIds)
  {
    var d, log := Decision(view, input), Step(view, isTrel, input).decided;
    MisfitDecides(view, isTrel, input, trelIds);
    MirrorAppend(view.decided, d.value, trelIds);
    if input.Id() !in trelIds {
      var twin: Transition :| twin.layer == Trel && log == view.decided + [d.value] + [twin];
      MirrorAppend(view.decided + [d.value], twin, trelIds);
    }
    assert |TrelLog(log)| != |Reflection(log, trelIds)|;
  }

  /** A handler keeps the mirror if and only if the type of its input fits the id. */
  lemma {:induction false} StepMirrorsIff(view: View, isTrel: string -> bool, input: Input, trelIds: set<string>)
    requires Mirrors(view, trelIds)
    ensures Mirrors(Step(view, isTrel, input), trelIds) <==> Fits(view, isTrel, input, trelIds)
  {
    if Fits(view, isTrel, input, trelIds) {
      FittingStep(view, isTrel, input, trelIds);
      StepKeepsMirror(view, serviceType => input.Id() in trelIds, input, trelIds);
    } else {
      MisfitBreaksTheMirror(view, isTrel, input, trelIds);
    }
  }

  predicate MirrorsAfter(inputs: seq<Input>, isTrel: string -> bool, trelIds: set<string>, n: nat)
    requires n <= |inputs|
  {
    Mirrors(Run(inputs[..n], isTrel), trelIds)
  }

  predicate FitsAt(inputs: seq<Input>, isTrel: string -> bool, trelIds: set<string>, n: nat)
    requires n < |inputs|
  {
    Fits(Run(inputs[..n], isTrel), isTrel, inputs[n], trelIds)
  }

  lemma NextMirrorsIff(inputs: seq<Input>, isTrel: string -> bool, trelIds: set<string>, n: nat)
    requires n < |inputs| && MirrorsAfter(inputs, isTrel, trelIds, n)
    ensures MirrorsAfter(inputs, isTrel, trelIds, n + 1) <==> FitsAt(inputs, isTrel, trelIds, n)
  {
    assert inputs[..n + 1][..n] == inputs[..n];
    StepMirrorsIff(Run(inputs[..n], isTrel), isTrel, inputs[n], trelIds);
  }

  lemma {:induction false} FittingRunMirrors(inputs: seq<Input>, isTrel: string -> bool, trelIds: set<string>, n: nat)
    requires n <= |inputs| && forall i :: 0 <= i < n ==> FitsAt(inputs, isTrel, trelIds, i)
    ensures MirrorsAfter(inputs, isTrel, trelIds, n)
    decreases n
  {
    if n == 0 {
      assert inputs[..0] == [];
    } else {
      FittingRunMirrors(inputs, isTrel, trelIds, n - 1);
      NextMirrorsIff(inputs, isTrel, trelIds, n - 1);
    }
  }

  /**
   In every run: after each handler the TREL cache has exactly the TREL services of the mDNS cache,
   with the same advert, visibility, counters and times (but for last-seen), and the TREL
   transitions decided are the mDNS transitions of TREL services, one for one, if and only if the
   type of every input fits its id.
   */
  lemma {:induction false} TrelMirrorsExactlyWhen(inputs: seq<Input>, isTrel: string -> bool, trelIds: set<string>)
    ensures (forall n :: 0 <= n <= |inputs| ==> MirrorsAfter(inputs, isTrel, trelIds, n))
            <==> (forall n :: 0 <= n < |inputs| ==> FitsAt(inputs, isTrel, trelIds, n))
  {
    if forall n :: 0 <= n < |inputs| ==> FitsAt(inputs, isTrel, trelIds, n) {
      forall n | 0 <= n <= |inputs| ensures MirrorsAfter(inputs, isTrel, trelIds, n) {
        FittingRunMirrors(inputs, isTrel, trelIds, n);
      }
    }
    if forall n :: 0 <= n <= |inputs| ==> MirrorsAfter(inputs, isTrel, trelIds, n) {
      forall n | 0 <= n < |inputs| ensures FitsAt(inputs, isTrel, trelIds, n) {
        NextMirrorsIff(inputs, isTrel, trelIds, n);
      }
    }
  }

  /** In particular in every run whose ids determine the TREL type. */
  lemma {:induction false} TrelMirrorsMdns(inputs: seq<Input>, isTrel: string -> bool, trelIds: set<string>)
    requires IdsDetermineTrel(inputs, isTrel, trelIds)
    ensures Mirrors(Run(inputs, isTrel), trelIds)
  {
    FittingRunMirrors(inputs, isTrel, trelIds, |inputs|);
    assert inputs[..|inputs|] == inputs;
  }

  /** When two service types share an id, a removal reported for the other type leaves TREL visible. */
  lemma {:induction false} SharedIdBreaksTheMirror(advert: Advert, isTrel: string -> bool)
    requires isTrel("_trel._udp.local.") && !isTrel("_trel_udp.local.")
    ensures var view := Run([Found(Record("x", "_trel._udp.local.", advert), 0), Gone("x", "_trel_udp.local.", 1)],
              isTrel);
            "x" in view.mdns && "x" in view.trel && !view.mdns["x"].presence.visible && view.trel["x"].presence.visible
  {
    var first := Found(Record("x", "_trel._udp.local.", advert), 0);
    var both := [first, Gone("x", "_trel_udp.local.", 1)];
    assert both[..1] == [first] && [first][..0] == [];
    assert Run([first], isTrel) == Step(Run([], isTrel), isTrel, first);
  }
}
