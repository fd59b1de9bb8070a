/**
 Choosing the events of a report: events about the focused subjects first, then the most recent
 of the others, up to a limit.
 */
module EventPriority {
  import opened Containers

  datatype Event = Event(id: string, subject: string)

  /** The events whose subject is (or is not) in `subjects`, in order. */
  function About(events: seq<Event>, subjects: set<string>, wanted: bool): seq<Event> {
    if events == [] then [] else
    var last := events[|events| - 1];
    About(events[..|events| - 1], subjects, wanted) + if (last.subject in subjects) == wanted then [last] else []
  }

  /** Python's `events[-k:]`: the whole list for `k == 0` and for `k` beyond its length. */
  function Last(events: seq<Event>, k: nat): (r: seq<Event>)
    ensures 0 < k <= |events| ==> |r| == k
  {
    if 0 < k <= |events| then events[|events| - k..] else events
  }

  /** All of both lists if they fit; else the focused ones first and the last of the others in the slots left. */
  function Combine(priority: seq<Event>, remainder: seq<Event>, limit: nat): seq<Event> {
    if |priority + remainder| <= limit then priority + remainder
    else if |priority| >= limit then Last(priority, limit)
    else priority + Last(remainder, limit - |priority|)
  }

  /**
   `_prioritise_events`; `focus` is the prioritised subject ids, empty when there is no focus. The
   source's limit is 100.
   */
  function Prioritised(events: seq<Event>, focus: set<string>, limit: nat): seq<Event> {
    if focus == {} then Last(events, limit)
    else Combine(About(events, focus, true), About(events, focus, false), limit)
  }

  /** `b` is a suffix of `a`. */
  predicate IsSuffix(b: seq<Event>, a: seq<Event>) {
    |b| <= |a| && b == a[|a| - |b|..]
  }

  lemma {:induction false} AboutSplits(events: seq<Event>, subjects: set<string>)
    ensures |About(events, subjects, true)| + |About(events, subjects, false)| == |events|
    decreases |events|
  {
    if events != [] {
      AboutSplits(events[..|events| - 1], subjects);
    }
  }

  lemma {:induction false} AboutConcat(a: seq<Event>, b: seq<Event>, subjects: set<string>, wanted: bool)
    ensures About(a + b, subjects, wanted) == About(a, subjects, wanted) + About(b, subjects, wanted)
  {
    if b == [] {
      assert a + b == a;
    } else {
      var n := |b| - 1;
      AboutConcat(a, b[..n], subjects, wanted);
      assert (a + b)[..|a + b| - 1] == a + b[..n];
    }
  }

  predicate AllAbout(events: seq<Event>, subjects: set<string>, wanted: bool) {
    forall i :: 0 <= i < |events| ==> (events[i].subject in subjects) == wanted
  }

  lemma {:induction false} AboutIsAbout(events: seq<Event>, subjects: set<string>, wanted: bool)
    ensures AllAbout(About(events, subjects, wanted), subjects, wanted)
  {
    if events != [] {
      AboutIsAbout(events[..|events| - 1], subjects, wanted);
    }
  }

  lemma {:induction false} AboutOwn(events: seq<Event>, subjects: set<string>, wanted: bool)
    requires AllAbout(events, subjects, wanted)
    ensures About(events, subjects, wanted) == events && About(events, subjects, !wanted) == []
  {
    if events != [] {
      var n := |events| - 1;
      AboutOwn(events[..n], subjects, wanted);
      assert events == events[..n] + [events[n]];
    }
  }

  lemma AboutParts(p: seq<Event>, r: seq<Event>, focus: set<string>)
    requires AllAbout(p, focus, true) && AllAbout(r, focus, false)
    ensures About(p + r, focus, true) == p && About(p + r, focus, false) == r
  {
    AboutConcat(p, r, focus, true);
    AboutConcat(p, r, focus, false);
    AboutOwn(p, focus, true);
    AboutOwn(r, focus, false);
    assert p + [] == p && [] + r == r;
  }

  function Tail(events: seq<Event>, k: nat): (r: seq<Event>)
    requires k <= |events|
    ensures IsSuffix(r, events) && |r| == k
  {
    events[|events| - k..]
  }

  /** How many events of each class are kept. */
  function FromPriority(p: nat, limit: nat): (k: nat)
    ensures k <= p && k <= limit
  {
    Min(p, limit)
  }

  function FromRest(p: nat, r: nat, limit: nat): (k: nat)
    ensures k <= r && FromPriority(p, limit) + k == Min(p + r, limit)
    ensures FromPriority(p, limit) < p ==> k == 0
  {
    if p + r <= limit then r else limit - FromPriority(p, limit)
  }

  /** The last focused events, then the last of the others. */
  lemma {:induction false} CombineParts(priority: seq<Event>, remainder: seq<Event>, limit: nat)
    requires limit > 0
    ensures Combine(priority, remainder, limit) ==
              Tail(priority, FromPriority(|priority|, limit)) +
                  Tail(remainder, FromRest(|priority|, |remainder|, limit))
  {
    assert Tail(priority, |priority|) == priority && Tail(remainder, |remainder|) == remainder;
    if |priority + remainder| > limit && |priority| >= limit {
      assert Tail(priority, limit) + [] == Tail(priority, limit);
      assert Tail(remainder, 0) == [];
    }
  }

  /**
   `p` and `r` are the most recent of the focused and of the other events, as many as fit, and no
   other event is kept unless all focused ones are.
   */
  predicate BestParts(p: seq<Event>, r: seq<Event>, priority: seq<Event>, remainder: seq<Event>, limit: nat) {
    && IsSuffix(p, priority) && IsSuffix(r, remainder)
    && |p| + |r| == Min(|priority| + |remainder|, limit)
    && (|p| < |priority| ==> r == [])
  }

  /** The kept events against all of them. */
  predicate KeepsBest(kept: seq<Event>, events: seq<Event>, focus: set<string>, limit: nat) {
    BestParts(About(kept, focus, true), About(kept, focus, false),
      About(events, focus, true), About(events, focus, false), limit)
  }

  lemma TailsAreBest(priority: seq<Event>, remainder: seq<Event>, limit: nat)
    ensures BestParts(Tail(priority, FromPriority(|priority|, limit)),
                      Tail(remainder, FromRest(|priority|, |remainder|, limit)), priority, remainder, limit)
  {
  }

  lemma CombineIsBest(priority: seq<Event>, remainder: seq<Event>, focus: set<string>, limit: nat)
    requires limit > 0 && AllAbout(priority, focus, true) && AllAbout(remainder, focus, false)
    ensures var kept := Combine(priority, remainder, limit);
            BestParts(About(kept, focus, true), About(kept, focus, false), priority, remainder, limit)
  {
    var p, r := Tail(priority, FromPriority(|priority|, limit)),
        Tail(remainder, FromRest(|priority|, |remainder|, limit));
    CombineParts(priority, remainder, limit);
    AboutParts(p, r, focus);
    TailsAreBest(priority, remainder, limit);
  }

  lemma UnfocusedKeepsAll(events: seq<Event>)
    ensures About(events, {}, true) == [] && About(events, {}, false) == events
  {
    AboutOwn(events, {}, false);
  }

  lemma LastIsTail(events: seq<Event>, limit: nat)
    requires limit > 0
    ensures IsSuffix(Last(events, limit), events) && |Last(events, limit)| == Min(|events|, limit)
  {
    assert events[0..] == events;
  }

  lemma LastIsBest(events: seq<Event>, limit: nat)
    requires limit > 0
    ensures BestParts([], Last(events, limit), [], events, limit)
  {
    LastIsTail(events, limit);
  }

  lemma UnfocusedKeepsBest(events: seq<Event>, limit: nat)
    requires limit > 0
    ensures KeepsBest(Last(events, limit), events, {}, limit)
  {
    LastIsBest(events, limit);
    UnfocusedKeepsAll(events);
    UnfocusedKeepsAll(Last(events, limit));
  }

  lemma FocusedKeepsBest(events: seq<Event>, focus: set<string>, limit: nat)
    requires limit > 0
    ensures KeepsBest(Combine(About(events, focus, true), About(events, focus, false), limit), events, focus, limit)
  {
    AboutIsAbout(events, focus, true);
    AboutIsAbout(events, focus, false);
    CombineIsBest(About(events, focus, true), About(events, focus, false), focus, limit);
  }

  /**
   For any limit of at least one: exactly `min(limit, n)` events are kept; those kept of each class
   are its most recent ones in their order; and if a focused event is dropped, nothing but focused
   events is kept. Without a focus the order of the whole list is kept as well.
   */
  lemma {:induction false} PrioritisedKeepsTheBest(events: seq<Event>, focus: set<string>, limit: nat)
    requires limit > 0
    ensures KeepsBest(Prioritised(events, focus, limit), events, focus, limit)
    ensures |Prioritised(events, focus, limit)| == Min(|events|, limit)
    ensures focus == {} ==> IsSuffix(Prioritised(events, focus, limit), events)
  {
    AboutSplits(events, focus);
    AboutSplits(Prioritised(events, focus, limit), focus);
    LastIsTail(events, limit);
    UnfocusedKeepsBest(events, limit);
    FocusedKeepsBest(events, focus, limit);
  }

  /** With a limit of zero the negative slice keeps everything, or every focused event, instead of nothing. */
  lemma {:induction false} ZeroLimitKeepsEverything(events: seq<Event>, focus: set<string>)
    ensures Prioritised(events, focus, 0) == if focus == {} then events else About(events, focus, true)
  {
    assert About(events, focus, true) == [] ==>
        About(events, focus, true) + About(events, focus, false) == About(events, focus, false);
  }
}
