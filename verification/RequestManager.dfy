/**
 Correlation of websocket responses with requests by message id. Code between two awaits is one
 atomic step, and the steps may come in any order: registering a request, starting to wait,
 dispatching an incoming payload, a waiter resuming, timing out or being cancelled, and failing
 everything on disconnect. A future is named by its allocation number.
 */
module RequestManager {
  import opened Containers

  datatype Result = Result(
    ok: bool, value: Option<string>, error: Option<string>, details: Option<string>, duration: Option<int>,
        timedOut: bool)

  datatype FutureState = Waiting | Done(result: Result) | Cancelled

  datatype Future = Future(id: string, state: FutureState)

  datatype Outcome =
    | KeyErrorRaised            // nothing registered under the id when the wait began
    | Got(result: Result)       // the future's result
    | TimedOut(result: Result)  // the waiter's own timeout
    | CancelledError            // the future was cancelled under the waiter
    | Abandoned                 // the waiter's own task was cancelled

  datatype WaiterState = Holding(future: nat, started: int) | Ended(outcome: Outcome)

  datatype Waiter = Waiter(id: string, state: WaiterState)

  datatype Body = ResultBody(value: string) | ErrorBody(error: string, details: Option<string>) | OtherBody

  /** `id` is None when the payload carries no text `message_id`. */
  datatype Payload = Payload(id: Option<string>, body: Body)

  datatype State = State(
    pending: map<string, nat>, registeredAt: map<string, int>, futures: seq<Future>, waiters: seq<Waiter>)

  datatype Op =
    | Register(id: string, now: int)
    | StartWait(id: string, now: int)
    | Dispatch(payload: Payload, now: int)
    | Resume(waiter: nat, now: int)
    | Expire(waiter: nat, now: int)
    | Abandon(waiter: nat)
    | CancelAll(reason: string, now: int)

  // ----- the steps -----

  function Response(body: Body, duration: Option<int>): Result
    requires !body.OtherBody?
  {
    match body
    case ResultBody(v) => Result(true, Some(v), None, None, duration, false)
    case ErrorBody(e, d) => Result(false, None, Some(e), d, duration, false)
  }

  function Disconnected(reason: string, duration: Option<int>): Result {
    Result(false, None, None, Some(reason), duration, false)
  }

  function TimeoutResult(duration: int): Result {
    Result(false, None, None, None, Some(duration), true)
  }

  predicate CanRegister(s: State, id: string) {
    id != "" && id !in s.pending
  }

  predicate Accepts(s: State, payload: Payload) {
    payload.id.Some? && payload.id.value in s.pending && !payload.body.OtherBody?
  }

  function Without<V>(m: map<string, V>, id: string): map<string, V> {
    map k | k in m && k != id :: m[k]
  }

  /**
   Both maps have the same keys; a registered id has a waiting future of its own; a waiter holds
   a future of the id it waits for.
   */
  predicate ValidState(s: State) {
    && s.pending.Keys == s.registeredAt.Keys && "" !in s.pending
    && (forall id :: id in s.pending ==> s.pending[id] < |s.futures| && s.futures[s.pending[id]] == Future(id, Waiting))
    && (forall w :: 0 <= w < |s.waiters| && s.waiters[w].state.Holding? ==>
          s.waiters[w].state.future < |s.futures| && s.futures[s.waiters[w].state.future].id == s.waiters[w].id)
  }

  /** Remove the entry of an id, leaving its future as it is. */
  function Discard(s: State, id: string): (r: State)
    requires ValidState(s)
    ensures ValidState(r)
  {
    s.(pending := Without(s.pending, id), registeredAt := Without(s.registeredAt, id))
  }

  /** Settle the registered future of an id, if any, and remove its entry. */
  function Settle(s: State, id: string, state: FutureState): (r: State)
    requires ValidState(s)
    ensures ValidState(r)
  {
    if id !in s.pending then s else
    s.(pending := Without(s.pending, id), registeredAt := Without(s.registeredAt, id),
       futures := s.futures[s.pending[id] := Future(id, state)])
  }

  predicate Holds(s: State, w: nat) {
    w < |s.waiters| && s.waiters[w].state.Holding?
  }

  function EndWaiter(s: State, w: nat, outcome: Outcome): (r: State)
    requires ValidState(s) && w < |s.waiters|
    ensures ValidState(r)
  {
    s.(waiters := s.waiters[w := s.waiters[w].(state := Ended(outcome))])
  }

  function WithDuration(result: Result, elapsed: int): Result {
    if result.duration.None? then result.(duration := Some(elapsed)) else result
  }

  function AddRequest(s: State, id: string, now: int): (r: State)
    requires ValidState(s) && CanRegister(s, id)
    ensures ValidState(r)
  {
    s.(pending := s.pending[id := |s.futures|], registeredAt := s.registeredAt[id := now],
       futures := s.futures + [Future(id, Waiting)])
  }

  function AddWaiter(s: State, id: string): (r: State)
    requires ValidState(s)
    ensures ValidState(r)
  {
    var state := if id in s.pending then Holding(s.pending[id], s.registeredAt[id]) else Ended(KeyErrorRaised);
    s.(waiters := s.waiters + [Waiter(id, state)])
  }

  function FailedFuture(s: State, f: nat, reason: string, now: int): Future
    requires ValidState(s) && f < |s.futures|
  {
    var future := s.futures[f];
    if future.id in s.pending && s.pending[future.id] == f then
      future.(state := Done(Disconnected(reason, Some(now - s.registeredAt[future.id]))))
    else future
  }

  function FailAll(s: State, reason: string, now: int): (r: State)
    requires ValidState(s)
    ensures ValidState(r)
  {
    s.(pending := map[], registeredAt := map[],
       futures := seq(|s.futures|, f requires 0 <= f < |s.futures| => FailedFuture(s, f, reason, now)))
  }

  function Step(s: State, op: Op): (r: State)
    requires ValidState(s)
    ensures ValidState(r)
  {
    match op
    case Register(id, now) => if CanRegister(s, id) then AddRequest(s, id, now) else s
    case StartWait(id, now) => AddWaiter(s, id)
    case Dispatch(payload, now) =>
      if !Accepts(s, payload) then s
      else
        var id := payload.id.value;
        Settle(s, id, Done(Response(payload.body, Some(now - s.registeredAt[id]))))
    case Resume(w, now) =>
      if !Holds(s, w) then s
      else
        var Waiter(id, Holding(future, started)) := s.waiters[w];
        (match s.futures[future].state
         case Waiting => s
         case Cancelled => EndWaiter(Discard(s, id), w, CancelledError)
         case Done(result) => EndWaiter(Discard(s, id), w, Got(WithDuration(result, now - started))))
    case Expire(w, now) =>
      if !Holds(s, w) then s
      else
        var Waiter(id, Holding(_, started)) := s.waiters[w];
        EndWaiter(Settle(s, id, Cancelled), w, TimedOut(TimeoutResult(now - started)))
    case Abandon(w) => if !Holds(s, w) then s else EndWaiter(Discard(s, s.waiters[w].id), w, Abandoned)
    case CancelAll(reason, now) => FailAll(s, reason, now)
  }

  const EMPTY := State(map[], map[], [], [])

  class Manager {
    var pending: map<string, nat>
    var registeredAt: map<string, int>
    var futures: seq<Future>
    var waiters: seq<Waiter>

    function Snapshot(): State
      reads this
    {
      State(pending, registeredAt, futures, waiters)
    }

    constructor ()
      ensures Snapshot() == EMPTY
    {
      pending, registeredAt, futures, waiters := map[], map[], [], [];
    }

    method RegisterRequest(id: string, now: int) returns (raised: bool)
      requires ValidState(Snapshot())
      modifies this
      ensures Snapshot() == Step(old(Snapshot()), Register(id, now))
      ensures raised <==> !CanRegister(old(Snapshot()), id)
    {
      if id == "" {
        return true;
      }
      if id in pending {
        return true;
      }
      pending := pending[id := |futures|];
      futures := futures + [Future(id, Waiting)];
      registeredAt := registeredAt[id := now];
      raised := false;
    }

    /** `wait_for` up to its await. */
    method BeginWait(id: string, now: int) returns (waiter: nat)
      requires ValidState(Snapshot())
      modifies this
      ensures Snapshot() == Step(old(Snapshot()), StartWait(id, now))
      ensures waiter == old(|waiters|)
      ensures waiters[waiter].state == Ended(KeyErrorRaised) <==> id !in old(pending)
    {
      waiter := |waiters|;
      if id !in pending {
        waiters := waiters + [Waiter(id, Ended(KeyErrorRaised))];
        return;
      }
      var started := if id in registeredAt then registeredAt[id] else now;
      waiters := waiters + [Waiter(id, Holding(pending[id], started))];
    }

    method DiscardEntry(id: string, cancelFuture: bool)
      requires ValidState(Snapshot())
      modifies this
      ensures Snapshot() == if cancelFuture then Settle(old(Snapshot()), id, Cancelled)
                else Discard(old(Snapshot()), id)
    {
      if cancelFuture && id in pending && futures[pending[id]].state == Waiting {
        futures := futures[pending[id] := futures[pending[id]].(state := Cancelled)];
      }
      pending := Without(pending, id);
      registeredAt := Without(registeredAt, id);
    }

    /** The rest of `wait_for` once the future is done or cancelled. */
    method FinishWait(w: nat, now: int)
      requires ValidState(Snapshot()) && Holds(Snapshot(), w) && futures[waiters[w].state.future].state != Waiting
      modifies this
      ensures Snapshot() == Step(old(Snapshot()), Resume(w, now))
    {
      var id, started := waiters[w].id, waiters[w].state.started;
      var outcome := CancelledError;
      match futures[waiters[w].state.future].state {
        case Done(result) =>
          outcome := Got(if result.duration == None then result.(duration := Some(now - started)) else result);
        case _ =>
      }
      waiters := waiters[w := Waiter(id, Ended(outcome))];
      DiscardEntry(id, false);
    }

    /** The rest of `wait_for` when its timeout fires. */
    method TimeOutWait(w: nat, now: int)
      requires ValidState(Snapshot()) && Holds(Snapshot(), w)
      modifies this
      ensures Snapshot() == Step(old(Snapshot()), Expire(w, now))
    {
      var id, started := waiters[w].id, waiters[w].state.started;
      var outcome := TimedOut(TimeoutResult(now - started));
      waiters := waiters[w := Waiter(id, Ended(outcome))];
      EndThenSettle(old(Snapshot()), w, outcome);
      DiscardEntry(id, true);
      DiscardEntry(id, false);
    }

    /** The `finally` of `wait_for` when the waiting task is cancelled. */
    method AbandonWait(w: nat)
      requires ValidState(Snapshot()) && Holds(Snapshot(), w)
      modifies this
      ensures Snapshot() == Step(old(Snapshot()), Abandon(w))
    {
      var id := waiters[w].id;
      waiters := waiters[w := Waiter(id, Ended(Abandoned))];
      DiscardEntry(id, false);
    }

    method DispatchIncoming(payload: Payload, now: int) returns (resolved: bool)
      requires ValidState(Snapshot())
      modifies this
      ensures Snapshot() == Step(old(Snapshot()), Dispatch(payload, now))
      ensures resolved <==> Accepts(old(Snapshot()), payload)
    {
      if payload.id == None {
        return false;
      }
      var id := payload.id.value;
      if id !in pending {
        return false;
      }
      var elapsed := now - registeredAt[id];
      if payload.body.OtherBody? {
        return false;
      }
      if futures[pending[id]].state == Waiting {
        futures := futures[pending[id] := futures[pending[id]].(state := Done(Response(payload.body, Some(elapsed))))];
      }
      pending := Without(pending, id);
      registeredAt := Without(registeredAt, id);
      resolved := true;
    }

    method CancelEverything(reason: string, now: int)
      requires ValidState(Snapshot())
      modifies this
      ensures Snapshot() == Step(old(Snapshot()), CancelAll(if reason == "" then "disconnected" else reason, now))
      ensures pending == map[]
    {
      var detail := if reason == "" then "disconnected" else reason;
      FailPending(detail, now);
    }

    /** The loop of `cancel_all`, in any order of the pending ids. */
    method FailPending(detail: string, now: int)
      requires ValidState(Snapshot())
      modifies this
      ensures Snapshot() == FailAll(old(Snapshot()), detail, now) && pending == map[]
    {
      ghost var s := Snapshot();
      var left := pending.Keys;
      NoneFailed(s, detail, now);
      while left != {}
        invariant left <= s.pending.Keys
        invariant Snapshot() == FailAllBut(s, left, detail, now)
        decreases |left|
      {
        var id :| id in left;
        FailRequest(id, detail, now, s, left);
        left := left - {id};
      }
      AllFailed(s, detail, now);
    }

    /** The loop body of `cancel_all`. */
    method FailRequest(id: string, detail: string, now: int, ghost s: State, ghost left: set<string>)
      requires ValidState(s) && id in left && left <= s.pending.Keys
      requires Snapshot() == FailAllBut(s, left, detail, now)
      modifies this
      ensures Snapshot() == FailAllBut(s, left - {id}, detail, now)
    {
      FailOne(s, left, id, detail, now);
      var elapsed := now - registeredAt[id];
      if futures[pending[id]].state == Waiting {
        futures := futures[pending[id] := futures[pending[id]].(state := Done(Disconnected(detail, Some(elapsed))))];
      }
      pending := Without(pending, id);
      registeredAt := Without(registeredAt, id);
    }
  }

  /** The entries in `left` are untouched, all others are failed and gone. */
  function FailAllBut(s: State, left: set<string>, reason: string, now: int): State
    requires ValidState(s) && left <= s.pending.Keys
  {
    State(map id | id in left :: s.pending[id], map id | id in left :: s.registeredAt[id],
      seq(|s.futures|, f requires 0 <= f < |s.futures| =>
        if s.futures[f].id in left then s.futures[f] else FailedFuture(s, f, reason, now)),
      s.waiters)
  }

  lemma NoneFailed(s: State, reason: string, now: int)
    requires ValidState(s)
    ensures FailAllBut(s, s.pending.Keys, reason, now) == s
  {
    assert FailAllBut(s, s.pending.Keys, reason, now).futures == s.futures;
  }

  lemma AllFailed(s: State, reason: string, now: int)
    requires ValidState(s)
    ensures FailAllBut(s, {}, reason, now) == FailAll(s, reason, now)
  {
    assert FailAllBut(s, {}, reason, now).futures == FailAll(s, reason, now).futures;
  }

  lemma FailOneFuture(s: State, left: set<string>, id: string, reason: string, now: int)
    requires ValidState(s) && id in left && left <= s.pending.Keys
    ensures var r := FailAllBut(s, left, reason, now);
            FailAllBut(s, left - {id}, reason, now).futures ==
              r.futures[s.pending[id] := Future(id, Done(Disconnected(reason, Some(now - s.registeredAt[id]))))]
  {
  }

  lemma FailOne(s: State, left: set<string>, id: string, reason: string, now: int)
    requires ValidState(s) && id in left && left <= s.pending.Keys
    ensures var r := FailAllBut(s, left, reason, now);
            && id in r.registeredAt && r.pending[id] < |r.futures| && r.futures[r.pending[id]] == Future(id, Waiting)
            && FailAllBut(s, left - {id}, reason, now) ==
                 State(Without(r.pending, id), Without(r.registeredAt, id),
                   r.futures[r.pending[id] := Future(id, Done(Disconnected(reason, Some(now - r.registeredAt[id]))))],
                   r.waiters)
  {
    var r, next := FailAllBut(s, left, reason, now), FailAllBut(s, left - {id}, reason, now);
    FailOneFuture(s, left, id, reason, now);
    assert next.pending == Without(r.pending, id) && next.registeredAt == Without(r.registeredAt, id);
  }

  /** Ending the waiter first makes no difference, nor does discarding an entry already gone. */
  lemma EndThenSettle(s: State, w: nat, outcome: Outcome)
    requires ValidState(s) && Holds(s, w)
    ensures var id := s.waiters[w].id; var ended := EndWaiter(s, w, outcome);
            && ended == s.(waiters := s.waiters[w := Waiter(id, Ended(outcome))])
            && Discard(Settle(ended, id, Cancelled), id) == EndWaiter(Settle(s, id, Cancelled), w, outcome)
  {
    var id := s.waiters[w].id;
    assert Without(Without(s.pending, id), id) == Without(s.pending, id);
    assert Without(Without(s.registeredAt, id), id) == Without(s.registeredAt, id);
    if id !in s.pending {
      assert Without(s.pending, id) == s.pending && Without(s.registeredAt, id) == s.registeredAt;
    }
  }

  // ----- whole runs -----

  function After(ops: seq<Op>): (s: State)
    ensures ValidState(s)
  {
    if ops == [] then EMPTY else Step(After(ops[..|ops| - 1]), ops[|ops| - 1])
  }

  lemma AfterStep(ops: seq<Op>, n: nat)
    requires n < |ops|
    ensures After(ops[..n + 1]) == Step(After(ops[..n]), ops[n])
  {
    assert ops[..n + 1][..n] == ops[..n];
  }

  /** Futures keep their id and, once settled, their state; waiters keep their id and, once ended, their outcome. */
  predicate Extends(s: State, later: State) {
    && |s.futures| <= |later.futures| && |s.waiters| <= |later.waiters|
    && (forall f :: 0 <= f < |s.futures| ==>
          later.futures[f].id == s.futures[f].id && (s.futures[f].state.Waiting? || later.futures[f] == s.futures[f]))
    && (forall w :: 0 <= w < |s.waiters| ==>
          later.waiters[w].id == s.waiters[w].id && (s.waiters[w].state.Holding? || later.waiters[w] == s.waiters[w]))
  }

  lemma ExtendsTransitively(a: State, b: State, c: State)
    requires Extends(a, b) && Extends(b, c)
    ensures Extends(a, c)
  {
  }

  lemma SettleExtends(s: State, id: string, state: FutureState)
    requires ValidState(s)
    ensures Extends(s, Settle(s, id, state)) && Extends(s, Discard(s, id))
  {
  }

  lemma EndExtends(s: State, t: State, w: nat, outcome: Outcome)
    requires ValidState(s) && ValidState(t) && Extends(s, t) && Holds(s, w) && t.waiters == s.waiters
    ensures Extends(s, EndWaiter(t, w, outcome))
  {
  }

  lemma AddExtends(s: State, id: string, now: int)
    requires ValidState(s)
    ensures CanRegister(s, id) ==> Extends(s, AddRequest(s, id, now))
    ensures Extends(s, AddWaiter(s, id))
  {
  }

  lemma FailExtends(s: State, reason: string, now: int)
    requires ValidState(s)
    ensures Extends(s, FailAll(s, reason, now))
  {
  }

  lemma DispatchExtends(s: State, payload: Payload, now: int)
    requires ValidState(s)
    ensures Extends(s, Step(s, Dispatch(payload, now)))
  {
    if Accepts(s, payload) {
      var id := payload.id.value;
      SettleExtends(s, id, Done(Response(payload.body, Some(now - s.registeredAt[id]))));
    }
  }

  lemma ExpireExtends(s: State, w: nat, now: int)
    requires ValidState(s)
    ensures Extends(s, Step(s, Expire(w, now)))
  {
    if Holds(s, w) {
      var id, started := s.waiters[w].id, s.waiters[w].state.started;
      SettleExtends(s, id, Cancelled);
      EndExtends(s, Settle(s, id, Cancelled), w, TimedOut(TimeoutResult(now - started)));
    }
  }

  lemma ResumeExtends(s: State, w: nat, now: int)
    requires ValidState(s)
    ensures Extends(s, Step(s, Resume(w, now)))
  {
    if Holds(s, w) {
      var state := s.futures[s.waiters[w].state.future].state;
      DiscardExtends(s, w, CancelledError);
      if state.Done? {
        DiscardExtends(s, w, Got(WithDuration(state.result, now - s.waiters[w].state.started)));
      }
    }
  }

  lemma AbandonExtends(s: State, w: nat)
    requires ValidState(s)
    ensures Extends(s, Step(s, Abandon(w)))
  {
    if Holds(s, w) {
      DiscardExtends(s, w, Abandoned);
    }
  }

  lemma StepExtends(s: State, op: Op)
    requires ValidState(s)
    ensures Extends(s, Step(s, op))
  {
    match op
    case Register(id, now) => AddExtends(s, id, now);
    case StartWait(id, now) => AddExtends(s, id, now);
    case CancelAll(reason, now) => FailExtends(s, reason, now);
    case Dispatch(payload, now) => DispatchExtends(s, payload, now);
    case Expire(w, now) => ExpireExtends(s, w, now);
    case Abandon(w) => AbandonExtends(s, w);
    case Resume(w, now) => ResumeExtends(s, w, now);
  }

  lemma DiscardExtends(s: State, w: nat, outcome: Outcome)
    requires ValidState(s) && Holds(s, w)
    ensures Extends(s, EndWaiter(Discard(s, s.waiters[w].id), w, outcome))
  {
    SettleExtends(s, s.waiters[w].id, Cancelled);
    EndExtends(s, Discard(s, s.waiters[w].id), w, outcome);
  }

  lemma ExtendOnce(a: State, ops: seq<Op>, n: nat)
    requires n < |ops| && Extends(a, After(ops[..n]))
    ensures Extends(a, After(ops[..n + 1]))
  {
    AfterStep(ops, n);
    StepExtends(After(ops[..n]), ops[n]);
    ExtendsTransitively(a, After(ops[..n]), After(ops[..n + 1]));
  }

  lemma {:induction false} KeepsExtending(a: State, ops: seq<Op>, i: nat, j: nat)
    requires i <= j <= |ops| && Extends(a, After(ops[..i]))
    ensures Extends(a, After(ops[..j]))
    decreases j - i
  {
    if i < j {
      ExtendOnce(a, ops, i);
      KeepsExtending(a, ops, i + 1, j);
    }
  }

  lemma ExtendsItself(s: State)
    ensures Extends(s, s)
  {
  }

  /** Each future is settled at most once and each waiter ends at most once, in every run. */
  lemma {:induction false} SettledForGood(ops: seq<Op>, i: nat, j: nat)
    requires i <= j <= |ops|
    ensures Extends(After(ops[..i]), After(ops[..j]))
  {
    ExtendsItself(After(ops[..i]));
    KeepsExtending(After(ops[..i]), ops, i, j);
  }

  // ----- where a result comes from -----

  /**
   The step carries this result to the given id, registered at `since`: what the payload for that id
   says, ok exactly for a result, or a failure with the reason of the disconnect.
   */
  predicate Carries(op: Op, id: string, since: int, result: Result) {
    && (op.Dispatch? || op.CancelAll?) && !result.timedOut && result.duration == Some(op.now - since)
    && (op.Dispatch? ==>
          var body := op.payload.body;
          && op.payload.id == Some(id) && !body.OtherBody?
          && (result.ok <==> body.ResultBody?)
          && result.value == (if body.ResultBody? then Some(body.value) else None)
          && result.error == (if body.ErrorBody? then Some(body.error) else None)
          && result.details == (if body.ErrorBody? then body.details else None))
    && (op.CancelAll? ==>
          !result.ok && result.value == None && result.error == None && result.details == Some(op.reason))
  }

  /** The future was created by registering its id at that time. */
  ghost predicate Registered(ops: seq<Op>, f: nat, id: string, since: int) {
    exists j :: 0 <= j < |ops| && ops[j] == Register(id, since) && Creates(After(ops[..j]), ops[j], f)
  }

  predicate Creates(s: State, op: Op, f: nat) {
    op.Register? && CanRegister(s, op.id) && f == |s.futures|
  }

  lemma RegisteredGrows(ops: seq<Op>, op: Op, f: nat, id: string, since: int)
    ensures Registered(ops, f, id, since) || (op == Register(id, since) && Creates(After(ops), op, f)) ==>
              Registered(ops + [op], f, id, since)
  {
    var all := ops + [op];
    assert all[|ops|] == op && all[..|ops|] == ops;
    if Registered(ops, f, id, since) {
      var j :| 0 <= j < |ops| && ops[j] == Register(id, since) && Creates(After(ops[..j]), ops[j], f);
      assert all[j] == ops[j] && all[..j] == ops[..j];
    }
  }

  /** The times that requests and waiters count from are those of the registrations. */
  ghost predicate RequestsTimed(ops: seq<Op>, s: State) {
    forall id :: id in s.pending && id in s.registeredAt ==> Registered(ops, s.pending[id], id, s.registeredAt[id])
  }

  ghost predicate WaitersTimed(ops: seq<Op>, s: State) {
    forall w: nat :: Holds(s, w) ==>
      Registered(ops, s.waiters[w].state.future, s.waiters[w].id, s.waiters[w].state.started)
  }

  lemma StepRegistration(s: State, op: Op, id: string)
    requires ValidState(s) && id in Step(s, op).pending
    ensures var next := Step(s, op);
            || (id in s.pending && next.pending[id] == s.pending[id] && next.registeredAt[id] == s.registeredAt[id])
            || (op == Register(id, next.registeredAt[id]) && Creates(s, op, next.pending[id]))
  {
  }

  lemma StepHoldings(s: State, op: Op)
    requires ValidState(s)
    ensures var next := Step(s, op);
            forall w :: 0 <= w < |next.waiters| && next.waiters[w].state.Holding? ==>
              (w < |s.waiters| && next.waiters[w] == s.waiters[w])
              || (next.waiters[w].id in s.pending && next.waiters[w].state ==
                    Holding(s.pending[next.waiters[w].id], s.registeredAt[next.waiters[w].id]))
  {
  }

  lemma RequestsStayTimed(ops: seq<Op>, op: Op)
    requires RequestsTimed(ops, After(ops))
    ensures RequestsTimed(ops + [op], Step(After(ops), op))
  {
    var s, next := After(ops), Step(After(ops), op);
    forall id | id in next.pending ensures Registered(ops + [op], next.pending[id], id, next.registeredAt[id]) {
      StepRegistration(s, op, id);
      RegisteredGrows(ops, op, next.pending[id], id, next.registeredAt[id]);
    }
  }

  lemma WaitersStayTimed(ops: seq<Op>, op: Op)
    requires RequestsTimed(ops, After(ops)) && WaitersTimed(ops, After(ops))
    ensures WaitersTimed(ops + [op], Step(After(ops), op))
  {
    var s, next := After(ops), Step(After(ops), op);
    StepHoldings(s, op);
    forall w: nat | Holds(next, w)
      ensures Registered(ops + [op], next.waiters[w].state.future, next.waiters[w].id, next.waiters[w].state.started)
    {
      var Holding(f, started) := next.waiters[w].state;
      assert Registered(ops, f, next.waiters[w].id, started) by {
        if w < |s.waiters| && next.waiters[w] == s.waiters[w] {
          assert Holds(s, w);
        }
      }
      RegisteredGrows(ops, op, f, next.waiters[w].id, started);
    }
  }

  lemma {:induction false} TimesAreRegistrations(ops: seq<Op>)
    ensures RequestsTimed(ops, After(ops)) && WaitersTimed(ops, After(ops))
  {
    if ops != [] {
      var before, op := ops[..|ops| - 1], ops[|ops| - 1];
      assert ops == before + [op];
      TimesAreRegistrations(before);
      RequestsStayTimed(before, op);
      WaitersStayTimed(before, op);
    }
  }

  /** The future is the one registered for the id. */
  predicate IsPending(s: State, f: nat, id: string) {
    id in s.pending && s.pending[id] == f
  }

  /** A step carried the result while this very future was pending. */
  ghost predicate Carried(ops: seq<Op>, f: nat, id: string, since: int, result: Result) {
    exists i :: 0 <= i < |ops| && Carries(ops[i], id, since, result) && IsPending(After(ops[..i]), f, id)
  }

  /** The future was registered, and settled with this result while pending. */
  ghost predicate Answered(ops: seq<Op>, f: nat, id: string, result: Result) {
    exists since :: Registered(ops, f, id, since) && Carried(ops, f, id, since, result)
  }

  /** At some point of the run the waiter held this future. */
  ghost predicate Held(ops: seq<Op>, w: nat, f: nat) {
    exists k :: 0 <= k <= |ops| && HoldsFuture(After(ops[..k]), w, f)
  }

  predicate HoldsFuture(s: State, w: nat, f: nat) {
    w < |s.waiters| && s.waiters[w].state.Holding? && s.waiters[w].state.future == f
  }

  /** Some waiter on this id has timed out. */
  ghost predicate SomeoneTimedOut(s: State, id: string) {
    exists w :: 0 <= w < |s.waiters| && s.waiters[w].id == id && s.waiters[w].state.Ended? &&
        s.waiters[w].state.outcome.TimedOut?
  }

  ghost predicate FutureExplained(ops: seq<Op>, s: State, f: nat)
    requires f < |s.futures|
  {
    var future := s.futures[f];
    match future.state
    case Waiting => true
    case Done(result) => Answered(ops, f, future.id, result)
    case Cancelled => SomeoneTimedOut(s, future.id)
  }

  /** A wait on the id began while it was not registered. */
  ghost predicate CameUnregistered(ops: seq<Op>, id: string) {
    exists i :: 0 <= i < |ops| && ops[i].StartWait? && ops[i].id == id && id !in After(ops[..i]).pending
  }

  /** The waiter held a future that was settled with this result. */
  ghost predicate Received(ops: seq<Op>, w: nat, id: string, result: Result) {
    exists f: nat :: Held(ops, w, f) && Answered(ops, f, id, result)
  }

  /** The waiter's own timeout: a failure with the time since the registration of the future it held. */
  ghost predicate Expired(ops: seq<Op>, w: nat, id: string, result: Result) {
    && !result.ok && result.timedOut && result.value == None && result.error == None && result.details == None
    && result.duration.Some? && RanOut(ops, w, id, result.duration.value)
  }

  ghost predicate RanOut(ops: seq<Op>, w: nat, id: string, elapsed: int) {
    exists f: nat, at :: Held(ops, w, f) && ExpiredAt(ops, w, at) && Registered(ops, f, id, at - elapsed)
  }

  predicate ExpiredAt(ops: seq<Op>, w: nat, at: int) {
    Expire(w, at) in ops
  }

  ghost predicate WaiterExplained(ops: seq<Op>, s: State, w: nat)
    requires w < |s.waiters|
  {
    var waiter := s.waiters[w];
    waiter.state.Ended? ==> OutcomeExplained(ops, s, w, waiter.id, waiter.state.outcome)
  }

  ghost predicate OutcomeExplained(ops: seq<Op>, s: State, w: nat, id: string, outcome: Outcome) {
    match outcome
    case KeyErrorRaised => CameUnregistered(ops, id)
    case Got(result) => Received(ops, w, id, result)
    case TimedOut(result) => Expired(ops, w, id, result)
    case CancelledError => SomeoneTimedOut(s, id)
    case Abandoned => Abandon(w) in ops
  }

  lemma CarriedGrows(ops: seq<Op>, op: Op, f: nat, id: string, since: int, result: Result)
    ensures Carried(ops, f, id, since, result) || (Carries(op, id, since, result) && IsPending(After(ops), f, id)) ==>
              Carried(ops + [op], f, id, since, result)
  {
    var all := ops + [op];
    assert all[|ops|] == op && all[..|ops|] == ops;
    if Carried(ops, f, id, since, result) {
      var i :| 0 <= i < |ops| && Carries(ops[i], id, since, result) && IsPending(After(ops[..i]), f, id);
      assert all[i] == ops[i] && all[..i] == ops[..i];
    }
  }

  lemma AnsweredGrows(ops: seq<Op>, op: Op, f: nat, id: string, result: Result)
    ensures Answered(ops, f, id, result) || AnswersNow(After(ops), op, f, id, result) ==>
              Answered(ops + [op], f, id, result)
  {
    if Answered(ops, f, id, result) {
      var since :| Registered(ops, f, id, since) && Carried(ops, f, id, since, result);
      RegisteredGrows(ops, op, f, id, since);
      CarriedGrows(ops, op, f, id, since, result);
    } else if AnswersNow(After(ops), op, f, id, result) {
      var since := After(ops).registeredAt[id];
      TimesAreRegistrations(ops);
      RegisteredGrows(ops, op, f, id, since);
      CarriedGrows(ops, op, f, id, since, result);
    }
  }

  predicate AnswersNow(s: State, op: Op, f: nat, id: string, result: Result) {
    IsPending(s, f, id) && id in s.registeredAt && Carries(op, id, s.registeredAt[id], result)
  }

  lemma HeldGrows(ops: seq<Op>, op: Op, w: nat, f: nat)
    ensures Held(ops, w, f) || HoldsFuture(After(ops), w, f) ==> Held(ops + [op], w, f)
  {
    var all := ops + [op];
    assert all[..|ops|] == ops;
    if Held(ops, w, f) {
      var k :| 0 <= k <= |ops| && HoldsFuture(After(ops[..k]), w, f);
      assert all[..k] == ops[..k];
    }
  }

  lemma TimedOutGrows(s: State, later: State, id: string)
    requires Extends(s, later) && SomeoneTimedOut(s, id)
    ensures SomeoneTimedOut(later, id)
  {
    var w :| 0 <= w < |s.waiters| && s.waiters[w].id == id && s.waiters[w].state.Ended? &&
        s.waiters[w].state.outcome.TimedOut?;
    assert later.waiters[w] == s.waiters[w];
  }

  /** How one step can settle a future. */
  lemma StepSettles(s: State, op: Op, f: nat)
    requires ValidState(s) && f < |Step(s, op).futures|
    ensures var future := Step(s, op).futures[f];
            || (f < |s.futures| && future == s.futures[f])
            || future.state.Waiting?
            || (future.state.Done? && AnswersNow(s, op, f, future.id, future.state.result))
            || (future.state.Cancelled? && op.Expire? && Holds(s, op.waiter) && s.waiters[op.waiter].id == future.id)
  {
  }

  /**
   A settled future has the response or the disconnect failure that came while it was the pending
   future of its id, or was cancelled by a timeout on its id.
   */
  lemma {:induction false} FuturesAreExplained(ops: seq<Op>, f: nat)
    requires f < |After(ops).futures|
    ensures FutureExplained(ops, After(ops), f)
  {
    var before, op := ops[..|ops| - 1], ops[|ops| - 1];
    var s, later := After(before), After(ops);
    var future := later.futures[f];
    assert ops == before + [op];
    StepSettles(s, op, f);
    StepExtends(s, op);
    if f < |s.futures| && future == s.futures[f] {
      FuturesAreExplained(before, f);
      if future.state.Cancelled? {
        TimedOutGrows(s, later, future.id);
      }
    } else if future.state.Cancelled? {
      assert later.waiters[op.waiter].state.Ended?;
    }
    if future.state.Done? {
      AnsweredGrows(before, op, f, future.id, future.state.result);
    }
  }

  /**
   A waiter that held a future gets what that future was settled with while pending, its own
   timeout or the disconnect failure; it is cancelled only if another waiter on the same id timed
   out first; and it sees a KeyError only if its id was not registered when it began to wait.
   */
  lemma {:induction false} WaitersAreExplained(ops: seq<Op>, w: nat)
    requires w < |After(ops).waiters|
    ensures WaiterExplained(ops, After(ops), w)
  {
    var before, op := ops[..|ops| - 1], ops[|ops| - 1];
    var s, waiter := After(before), After(ops).waiters[w];
    assert ops == before + [op];
    StepExtends(s, op);
    if w < |s.waiters| && waiter == s.waiters[w] {
      WaitersAreExplained(before, w);
      KeepExplanation(before, op, w);
    } else if waiter.state.Ended? {
      match waiter.state.outcome
      case KeyErrorRaised => KeyErrorIsExplained(before, op, w, waiter.id);
      case Got(result) => ResultIsExplained(before, op, w, waiter.id, result);
      case TimedOut(result) => TimeoutIsExplained(before, op, w, waiter.id, result);
      case CancelledError => CancelledIsExplained(before, op, w, waiter.id);
      case Abandoned => AbandonedIsExplained(before, op, w, waiter.id);
    }
  }

  /** The step ends this waiter with this outcome. */
  predicate EndsWith(s: State, op: Op, w: nat, id: string, outcome: Outcome)
    requires ValidState(s)
  {
    && w < |Step(s, op).waiters| && Step(s, op).waiters[w] == Waiter(id, Ended(outcome))
    && (w < |s.waiters| ==> s.waiters[w].state.Holding?)
  }

  /** Which step can end a waiter in which way. */
  predicate EndedBy(s: State, op: Op, w: nat, id: string, outcome: Outcome)
    requires ValidState(s)
  {
    match outcome
    case KeyErrorRaised => op.StartWait? && op.id == id && id !in s.pending
    case Got(result) =>
      op.Resume? && op.waiter == w && Holds(s, w) && s.waiters[w].id == id && Settled(s, w, op.now, result)
    case TimedOut(result) =>
      op.Expire? && op.waiter == w && Holds(s, w) && s.waiters[w].id == id
      && result == Result(false, None, None, None, Some(op.now - s.waiters[w].state.started), true)
    case CancelledError =>
      op.Resume? && op.waiter == w && Holds(s, w) && s.waiters[w].id == id && IsCancelled(s, s.waiters[w].state.future)
    case Abandoned => op == Abandon(w)
  }

  /** The future that the waiter holds has this result, with a duration if it had none. */
  predicate Settled(s: State, w: nat, now: int, result: Result)
    requires ValidState(s) && Holds(s, w)
  {
    match s.futures[s.waiters[w].state.future].state
    case Done(r) => result == if r.duration.Some? then r else r.(duration := Some(now - s.waiters[w].state.started))
    case _ => false
  }

  lemma StepEnds(s: State, op: Op, w: nat, id: string, outcome: Outcome)
    requires ValidState(s) && EndsWith(s, op, w, id, outcome)
    ensures EndedBy(s, op, w, id, outcome)
  {
  }

  lemma KeyErrorIsExplained(ops: seq<Op>, op: Op, w: nat, id: string)
    requires EndsWith(After(ops), op, w, id, KeyErrorRaised)
    ensures CameUnregistered(ops + [op], id)
  {
    StepEnds(After(ops), op, w, id, KeyErrorRaised);
    CameNow(ops, op);
  }

  lemma ResultIsExplained(ops: seq<Op>, op: Op, w: nat, id: string, result: Result)
    requires EndsWith(After(ops), op, w, id, Got(result))
    ensures Received(ops + [op], w, id, result)
  {
    StepEnds(After(ops), op, w, id, Got(result));
    GotIsExplained(ops, op, w, id, result);
  }

  lemma TimeoutTells(s: State, op: Op, w: nat, id: string, result: Result)
    requires ValidState(s) && EndsWith(s, op, w, id, TimedOut(result))
    ensures op.Expire? && op.waiter == w && Holds(s, w) && s.waiters[w].id == id
    ensures result == Result(false, None, None, None, Some(op.now - s.waiters[w].state.started), true)
  {
    StepEnds(s, op, w, id, TimedOut(result));
  }

  lemma TimeoutIsExplained(ops: seq<Op>, op: Op, w: nat, id: string, result: Result)
    requires EndsWith(After(ops), op, w, id, TimedOut(result))
    ensures Expired(ops + [op], w, id, result)
  {
    TimeoutTells(After(ops), op, w, id, result);
    var Holding(f, since) := After(ops).waiters[w].state;
    TimesAreRegistrations(ops);
    RegisteredGrows(ops, op, f, id, since);
    HeldGrows(ops, op, w, f);
    ExpiredNow(ops, op);
    assert since == op.now - result.duration.value;
  }

  lemma AbandonedIsExplained(ops: seq<Op>, op: Op, w: nat, id: string)
    requires EndsWith(After(ops), op, w, id, Abandoned)
    ensures Abandon(w) in ops + [op]
  {
    StepEnds(After(ops), op, w, id, Abandoned);
    AbandonedNow(ops, w);
  }

  lemma CancelledIsExplained(ops: seq<Op>, op: Op, w: nat, id: string)
    requires EndsWith(After(ops), op, w, id, CancelledError)
    ensures SomeoneTimedOut(Step(After(ops), op), id)
  {
    StepEnds(After(ops), op, w, id, CancelledError);
    FuturesAreExplained(ops, After(ops).waiters[w].state.future);
    StepExtends(After(ops), op);
    TimedOutGrows(After(ops), Step(After(ops), op), id);
  }

  lemma AbandonedNow(ops: seq<Op>, w: nat)
    ensures Abandon(w) in ops + [Abandon(w)]
  {
    assert (ops + [Abandon(w)])[|ops|] == Abandon(w);
  }

  lemma GotIsExplained(ops: seq<Op>, op: Op, w: nat, id: string, result: Result)
    requires Holds(After(ops), w) && op.Resume? && Settled(After(ops), w, op.now, result)
    requires After(ops).waiters[w].id == id
    ensures Received(ops + [op], w, id, result)
  {
    var f := After(ops).waiters[w].state.future;
    FuturesAreExplained(ops, f);
    AnswersHaveDurations(ops, f, id, After(ops).futures[f].state.result);
    ReceivedNow(ops, op, w, f, id, result);
  }

  lemma CameNow(ops: seq<Op>, op: Op)
    requires op.StartWait? && op.id !in After(ops).pending
    ensures CameUnregistered(ops + [op], op.id)
  {
    var all := ops + [op];
    assert all[|ops|] == op && all[..|ops|] == ops;
  }

  lemma ReceivedNow(ops: seq<Op>, op: Op, w: nat, f: nat, id: string, result: Result)
    requires HoldsFuture(After(ops), w, f) && Answered(ops, f, id, result)
    ensures Received(ops + [op], w, id, result)
  {
    AnsweredGrows(ops, op, f, id, result);
    HeldGrows(ops, op, w, f);
  }

  lemma AnswersHaveDurations(ops: seq<Op>, f: nat, id: string, result: Result)
    requires Answered(ops, f, id, result)
    ensures result.duration.Some?
  {
    var since :| Registered(ops, f, id, since) && Carried(ops, f, id, since, result);
  }

  lemma ExpiredNow(ops: seq<Op>, op: Op)
    requires op.Expire?
    ensures ExpiredAt(ops + [op], op.waiter, op.now)
  {
  }

  lemma ExpiredAtGrows(ops: seq<Op>, op: Op, w: nat, at: int)
    requires ExpiredAt(ops, w, at)
    ensures ExpiredAt(ops + [op], w, at)
  {
  }

  lemma CameUnregisteredGrows(ops: seq<Op>, op: Op, id: string)
    requires CameUnregistered(ops, id)
    ensures CameUnregistered(ops + [op], id)
  {
    var all := ops + [op];
    var i :| 0 <= i < |ops| && ops[i].StartWait? && ops[i].id == id && id !in After(ops[..i]).pending;
    assert all[i] == ops[i] && all[..i] == ops[..i];
  }

  lemma ReceivedGrows(ops: seq<Op>, op: Op, w: nat, id: string, result: Result)
    requires Received(ops, w, id, result)
    ensures Received(ops + [op], w, id, result)
  {
    var f: nat :| Held(ops, w, f) && Answered(ops, f, id, result);
    AnsweredGrows(ops, op, f, id, result);
    HeldGrows(ops, op, w, f);
  }

  lemma RanOutGrows(ops: seq<Op>, op: Op, w: nat, id: string, elapsed: int)
    requires RanOut(ops, w, id, elapsed)
    ensures RanOut(ops + [op], w, id, elapsed)
  {
    var f: nat, at :| Held(ops, w, f) && ExpiredAt(ops, w, at) && Registered(ops, f, id, at - elapsed);
    var since := at - elapsed;
    HeldGrows(ops, op, w, f);
    ExpiredAtGrows(ops, op, w, at);
    RegisteredGrows(ops, op, f, id, since);
  }

  lemma KeepExplanation(ops: seq<Op>, op: Op, w: nat)
    requires w < |After(ops).waiters| && WaiterExplained(ops, After(ops), w)
    requires After(ops + [op]) == Step(After(ops), op) && After(ops + [op]).waiters[w] == After(ops).waiters[w]
    ensures WaiterExplained(ops + [op], After(ops + [op]), w)
  {
    var waiter := After(ops).waiters[w];
    StepExtends(After(ops), op);
    if waiter.state.Ended? {
      match waiter.state.outcome
      case KeyErrorRaised => CameUnregisteredGrows(ops, op, waiter.id);
      case Got(result) => ReceivedGrows(ops, op, w, waiter.id, result);
      case TimedOut(result) => RanOutGrows(ops, op, w, waiter.id, result.duration.value);
      case CancelledError => TimedOutGrows(After(ops), After(ops + [op]), waiter.id);
      case Abandoned =>
    }
  }

  // ----- exactly how a future ends -----

  /** The step settles the future with an accepted payload or the disconnect failure. */
  predicate Completes(s: State, op: Op, f: nat) {
    match op
    case Dispatch(payload, _) => Accepts(s, payload) && IsPending(s, f, payload.id.value)
    case CancelAll(_, _) => exists id :: id in s.pending && s.pending[id] == f
    case _ => false
  }

  /** A waiter on the future's id times out while the future is pending. */
  predicate Cancels(s: State, op: Op, f: nat) {
    op.Expire? && Holds(s, op.waiter) && IsPending(s, f, s.waiters[op.waiter].id)
  }

  /** A waiter on its id is cancelled, or resumes with another future, while the future is pending. */
  predicate Orphans(s: State, op: Op, f: nat)
    requires ValidState(s)
  {
    && (op.Resume? || op.Abandon?)
    && Holds(s, op.waiter) && IsPending(s, f, s.waiters[op.waiter].id)
    && (op.Resume? ==> !s.futures[s.waiters[op.waiter].state.future].state.Waiting?)
  }

  /** The future waits for ever: its id is no longer registered to it. */
  predicate Orphaned(s: State, f: nat) {
    f < |s.futures| && s.futures[f].state.Waiting? && !IsPending(s, f, s.futures[f].id)
  }

  predicate IsCancelled(s: State, f: nat) {
    f < |s.futures| && s.futures[f].state.Cancelled?
  }

  predicate IsDone(s: State, f: nat) {
    f < |s.futures| && s.futures[f].state.Done?
  }

  lemma ResumeFates(s: State, w: nat, now: int, f: nat)
    requires ValidState(s)
    ensures var next := Step(s, Resume(w, now));
            && next.futures == s.futures
            && (Orphaned(next, f) <==> Orphaned(s, f) || Orphans(s, Resume(w, now), f))
  {
  }

  lemma AbandonFates(s: State, w: nat, f: nat)
    requires ValidState(s)
    ensures var next := Step(s, Abandon(w));
            && next.futures == s.futures
            && (Orphaned(next, f) <==> Orphaned(s, f) || Orphans(s, Abandon(w), f))
  {
  }

  lemma ExpireFates(s: State, w: nat, now: int, f: nat)
    requires ValidState(s)
    ensures var next := Step(s, Expire(w, now));
            && (IsCancelled(next, f) <==> IsCancelled(s, f) || Cancels(s, Expire(w, now), f))
            && (Orphaned(next, f) <==> Orphaned(s, f)) && (IsDone(next, f) <==> IsDone(s, f))
  {
  }

  lemma AddFates(s: State, op: Op, f: nat)
    requires ValidState(s) && (op.Register? || op.StartWait?)
    ensures var next := Step(s, op);
            && (IsCancelled(next, f) <==> IsCancelled(s, f))
            && (Orphaned(next, f) <==> Orphaned(s, f)) && (IsDone(next, f) <==> IsDone(s, f))
  {
  }

  lemma DispatchFates(s: State, payload: Payload, now: int, f: nat)
    requires ValidState(s)
    ensures var op := Dispatch(payload, now); var next := Step(s, op);
            && (IsCancelled(next, f) <==> IsCancelled(s, f)) && (Orphaned(next, f) <==> Orphaned(s, f))
            && (IsDone(next, f) <==> IsDone(s, f) || Completes(s, op, f))
  {
  }

  lemma FailureFates(s: State, reason: string, now: int, f: nat)
    requires ValidState(s)
    ensures var op := CancelAll(reason, now); var next := Step(s, op);
            && (IsCancelled(next, f) <==> IsCancelled(s, f)) && (Orphaned(next, f) <==> Orphaned(s, f))
            && (IsDone(next, f) <==> IsDone(s, f) || Completes(s, op, f))
  {
  }

  lemma StepFates(s: State, op: Op, f: nat)
    requires ValidState(s)
    ensures IsDone(Step(s, op), f) <==> IsDone(s, f) || Completes(s, op, f)
    ensures IsCancelled(Step(s, op), f) <==> IsCancelled(s, f) || Cancels(s, op, f)
    ensures Orphaned(Step(s, op), f) <==> Orphaned(s, f) || Orphans(s, op, f)
  {
    match op
    case Resume(w, now) => ResumeFates(s, w, now, f);
    case Abandon(w) => AbandonFates(s, w, f);
    case Expire(w, now) => ExpireFates(s, w, now, f);
    case Dispatch(payload, now) => DispatchFates(s, payload, now, f);
    case CancelAll(reason, now) => FailureFates(s, reason, now, f);
    case _ => AddFates(s, op, f);
  }

  ghost predicate CompletedIn(ops: seq<Op>, f: nat) {
    exists i :: 0 <= i < |ops| && Completes(After(ops[..i]), ops[i], f)
  }

  ghost predicate CancelledIn(ops: seq<Op>, f: nat) {
    exists i :: 0 <= i < |ops| && Cancels(After(ops[..i]), ops[i], f)
  }

  ghost predicate OrphanedIn(ops: seq<Op>, f: nat) {
    exists i :: 0 <= i < |ops| && Orphans(After(ops[..i]), ops[i], f)
  }

  lemma OneMoreStep(ops: seq<Op>, op: Op, f: nat)
    ensures CompletedIn(ops + [op], f) <==> CompletedIn(ops, f) || Completes(After(ops), op, f)
    ensures CancelledIn(ops + [op], f) <==> CancelledIn(ops, f) || Cancels(After(ops), op, f)
    ensures OrphanedIn(ops + [op], f) <==> OrphanedIn(ops, f) || Orphans(After(ops), op, f)
  {
    var all := ops + [op];
    assert forall i :: 0 <= i < |ops| ==> all[..i] == ops[..i] && all[i] == ops[i];
    assert all[..|ops|] == ops && all[|ops|] == op;
  }

  /**
   In every run: a future ends with a result if and only if a payload for its id was accepted or the
   connection failed while it was pending; it ends cancelled if and only if a waiter on its id
   timed out while it was pending; and it waits for ever without an entry if and only if a waiter
   on its id was cancelled, or resumed with an earlier future, while it was pending.
   */
  lemma {:induction false} FatesOfAFuture(ops: seq<Op>, f: nat)
    ensures IsDone(After(ops), f) <==> CompletedIn(ops, f)
    ensures IsCancelled(After(ops), f) <==> CancelledIn(ops, f)
    ensures Orphaned(After(ops), f) <==> OrphanedIn(ops, f)
  {
    if ops != [] {
      var before, op := ops[..|ops| - 1], ops[|ops| - 1];
      assert ops == before + [op];
      FatesOfAFuture(before, f);
      OneMoreStep(before, op, f);
      StepFates(After(before), op, f);
    }
  }

  // ----- every registration ends in exactly one way -----

  predicate Registers(s: State, op: Op, id: string) {
    op.Register? && op.id == id && CanRegister(s, id)
  }

  predicate Answers(s: State, op: Op, id: string) {
    op.Dispatch? && op.payload.id == Some(id) && Accepts(s, op.payload)
  }

  predicate Fails(s: State, op: Op, id: string) {
    op.CancelAll? && id in s.pending
  }

  /** A waiter on this id ends while the id is still registered. */
  predicate Drops(s: State, op: Op, id: string)
    requires ValidState(s)
  {
    && id in s.pending && (op.Resume? || op.Expire? || op.Abandon?)
    && Holds(s, op.waiter) && s.waiters[op.waiter].id == id
    && (op.Resume? ==> !s.futures[s.waiters[op.waiter].state.future].state.Waiting?)
  }

  /** What a step can do with the registration of an id. */
  datatype Fate = Registering | Answering | Failing | Dropping

  predicate Meets(s: State, op: Op, id: string, fate: Fate)
    requires ValidState(s)
  {
    match fate
    case Registering => Registers(s, op, id)
    case Answering => Answers(s, op, id)
    case Failing => Fails(s, op, id)
    case Dropping => Drops(s, op, id)
  }

  /** How many steps of a run meet the id with this fate. */
  ghost function StepsWith(ops: seq<Op>, id: string, fate: Fate): nat {
    if ops == [] then 0 else
    var before, op := ops[..|ops| - 1], ops[|ops| - 1];
    StepsWith(before, id, fate) + if Meets(After(before), op, id, fate) then 1 else 0
  }

  /** At most one of the four happens, and the entry comes with the first and goes with the others. */
  lemma StepBalances(s: State, op: Op, id: string)
    requires ValidState(s)
    ensures Registers(s, op, id) ==> id !in s.pending && id in Step(s, op).pending
    ensures Answers(s, op, id) || Fails(s, op, id) || Drops(s, op, id) ==>
              id in s.pending && id !in Step(s, op).pending
    ensures !Registers(s, op, id) && !Answers(s, op, id) && !Fails(s, op, id) && !Drops(s, op, id) ==>
              (id in Step(s, op).pending <==> id in s.pending)
  {
  }

  /**
   Conservation: every registration of an id has been answered once, failed once, dropped once by
   a waiter, or is still pending. So accepted payloads never outnumber registrations, and nothing
   is pending once every registration has ended.
   */
  lemma {:induction false} RegistrationsBalance(ops: seq<Op>, id: string)
    ensures StepsWith(ops, id, Registering) ==
              StepsWith(ops, id, Answering) + StepsWith(ops, id, Failing) + StepsWith(ops, id, Dropping)
              + if id in After(ops).pending then 1 else 0
  {
    if ops != [] {
      RegistrationsBalance(ops[..|ops| - 1], id);
      StepBalances(After(ops[..|ops| - 1]), ops[|ops| - 1], id);
    }
  }

  // ----- an answer that comes before the wait is lost -----

  /** The step ends a pending registration of `id` on which nobody waits. */
  predicate Resolves(op: Op, id: string) {
    match op
    case Dispatch(payload, _) => payload.id == Some(id) && !payload.body.OtherBody?
    case CancelAll(_, _) => true
    case _ => false
  }

  predicate NobodyWaits(s: State, id: string) {
    forall w :: 0 <= w < |s.waiters| ==> s.waiters[w].id != id
  }

  predicate Untouched(ops: seq<Op>, id: string) {
    forall op :: op in ops ==> (op.Register? ==> op.id != id) && (op.StartWait? ==> op.id != id)
  }

  function RunFrom(s: State, ops: seq<Op>): (r: State)
    requires ValidState(s)
    ensures ValidState(r)
  {
    if ops == [] then s else Step(RunFrom(s, ops[..|ops| - 1]), ops[|ops| - 1])
  }

  lemma ResumePending(s: State, w: nat, now: int)
    requires ValidState(s) && Holds(s, w)
    ensures Step(s, Resume(w, now)).pending in [s.pending, Without(s.pending, s.waiters[w].id)]
    ensures |Step(s, Resume(w, now)).waiters| == |s.waiters|
  {
  }

  lemma ExpirePending(s: State, w: nat, now: int)
    requires ValidState(s) && Holds(s, w)
    ensures Step(s, Expire(w, now)).pending in [s.pending, Without(s.pending, s.waiters[w].id)]
    ensures |Step(s, Expire(w, now)).waiters| == |s.waiters|
  {
  }

  /** A waiter's own step drops at most the entry of its own id. */
  lemma WaiterStepPending(s: State, op: Op)
    requires ValidState(s) && (op.Resume? || op.Expire? || op.Abandon?) && Holds(s, op.waiter)
    ensures Step(s, op).pending in [s.pending, Without(s.pending, s.waiters[op.waiter].id)]
    ensures |Step(s, op).waiters| == |s.waiters|
  {
    match op
    case Resume(w, now) => ResumePending(s, w, now);
    case Expire(w, now) => ExpirePending(s, w, now);
    case Abandon(_) =>
  }

  lemma WaiterStepWithoutWaiter(s: State, op: Op, id: string)
    requires ValidState(s) && NobodyWaits(s, id) && (op.Resume? || op.Expire? || op.Abandon?)
    ensures NobodyWaits(Step(s, op), id) && (id in Step(s, op).pending <==> id in s.pending)
  {
    if Holds(s, op.waiter) {
      StepExtends(s, op);
      WaiterStepPending(s, op);
    }
  }

  lemma OtherStepWithoutWaiter(s: State, op: Op, id: string)
    requires ValidState(s) && NobodyWaits(s, id) && !(op.Resume? || op.Expire? || op.Abandon?)
    requires (op.Register? ==> op.id != id) && (op.StartWait? ==> op.id != id)
    ensures NobodyWaits(Step(s, op), id)
    ensures id in Step(s, op).pending <==> id in s.pending && !Resolves(op, id)
  {
  }

  lemma StepWithoutWaiter(s: State, op: Op, id: string)
    requires ValidState(s) && NobodyWaits(s, id)
    requires (op.Register? ==> op.id != id) && (op.StartWait? ==> op.id != id)
    ensures NobodyWaits(Step(s, op), id)
    ensures id in Step(s, op).pending <==> id in s.pending && !Resolves(op, id)
  {
    if op.Resume? || op.Expire? || op.Abandon? {
      WaiterStepWithoutWaiter(s, op, id);
    } else {
      OtherStepWithoutWaiter(s, op, id);
    }
  }

  lemma {:induction false} PendingUntilResolved(s: State, ops: seq<Op>, id: string)
    requires ValidState(s) && id in s.pending && NobodyWaits(s, id) && Untouched(ops, id)
    ensures NobodyWaits(RunFrom(s, ops), id)
    ensures id in RunFrom(s, ops).pending <==> forall op :: op in ops ==> !Resolves(op, id)
  {
    if ops != [] {
      var before, op := ops[..|ops| - 1], ops[|ops| - 1];
      assert ops == before + [op];
      PendingUntilResolved(s, before, id);
      StepWithoutWaiter(RunFrom(s, before), op, id);
    }
  }

  /**
   A wait that begins after the request was registered, with no other registration or wait on the
   id in between, raises KeyError exactly when the response or a disconnect arrived first.
   */
  lemma {:induction false} EarlyAnswerIsLost(s: State, between: seq<Op>, id: string, now: int)
    requires ValidState(s) && id in s.pending && NobodyWaits(s, id) && Untouched(between, id)
    ensures var waiting := RunFrom(s, between);
            var waiter := Step(waiting, StartWait(id, now)).waiters[|waiting.waiters|];
            waiter == Waiter(id, Ended(KeyErrorRaised)) <==> exists op :: op in between && Resolves(op, id)
  {
    PendingUntilResolved(s, between, id);
  }

  // ----- what unique ids buy -----

  predicate StartsIds(ops: seq<Op>, i: int, j: int)
    requires 0 <= i < |ops| && 0 <= j < |ops|
  {
    (ops[i].Register? && ops[j].Register?) || (ops[i].StartWait? && ops[j].StartWait?)
  }

  /** As the observer uses it: each id is registered at most once and waited for at most once. */
  predicate SingleUse(ops: seq<Op>) {
    forall i, j :: 0 <= i < j < |ops| && StartsIds(ops, i, j) ==> ops[i].id != ops[j].id
  }

  predicate DistinctIds(s: State) {
    && (forall f, g :: 0 <= f < g < |s.futures| ==> s.futures[f].id != s.futures[g].id)
    && (forall v, w :: 0 <= v < w < |s.waiters| ==> s.waiters[v].id != s.waiters[w].id)
  }

  /** A waiter whose future is unsettled can still be answered: its id is registered, to that future. */
  predicate CanBeAnswered(s: State) {
    forall w :: 0 <= w < |s.waiters| && s.waiters[w].state.Holding? &&
                s.waiters[w].state.future < |s.futures| && s.futures[s.waiters[w].state.future].state.Waiting? ==>
      s.waiters[w].id in s.pending && s.pending[s.waiters[w].id] == s.waiters[w].state.future
  }

  function RegisteredIds(ops: seq<Op>): set<string> {
    set op | op in ops && op.Register? :: op.id
  }

  function WaitedIds(ops: seq<Op>): set<string> {
    set op | op in ops && op.StartWait? :: op.id
  }

  predicate IdsCameFrom(ops: seq<Op>, s: State) {
    && (forall f :: 0 <= f < |s.futures| ==> s.futures[f].id in RegisteredIds(ops))
    && (forall w :: 0 <= w < |s.waiters| ==> s.waiters[w].id in WaitedIds(ops))
  }

  lemma StepIds(s: State, op: Op)
    requires ValidState(s)
    ensures var next := Step(s, op);
            && (|next.futures| == |s.futures| ||
                (op.Register? && |next.futures| == |s.futures| + 1 && next.futures[|s.futures|].id == op.id))
            && (|next.waiters| == |s.waiters| ||
                (op.StartWait? && |next.waiters| == |s.waiters| + 1 && next.waiters[|s.waiters|].id == op.id))
  {
  }

  lemma {:induction false} IdsAreFromOps(ops: seq<Op>)
    ensures IdsCameFrom(ops, After(ops))
  {
    if ops != [] {
      var before, op := ops[..|ops| - 1], ops[|ops| - 1];
      IdsAreFromOps(before);
      assert ops == before + [op];
      StepIds(After(before), op);
      StepExtends(After(before), op);
      assert RegisteredIds(before) <= RegisteredIds(ops) && WaitedIds(before) <= WaitedIds(ops);
      assert op.Register? ==> op.id in RegisteredIds(ops);
      assert op.StartWait? ==> op.id in WaitedIds(ops);
    }
  }

  lemma StepKeepsDistinct(s: State, op: Op)
    requires ValidState(s) && DistinctIds(s)
    requires op.Register? ==> forall f :: 0 <= f < |s.futures| ==> s.futures[f].id != op.id
    requires op.StartWait? ==> forall w :: 0 <= w < |s.waiters| ==> s.waiters[w].id != op.id
    ensures DistinctIds(Step(s, op))
  {
    StepIds(s, op);
    StepExtends(s, op);
  }

  lemma SettleKeepsAnswerable(s: State, id: string, state: FutureState)
    requires ValidState(s) && CanBeAnswered(s) && !state.Waiting?
    ensures CanBeAnswered(Settle(s, id, state))
  {
  }

  lemma EndKeepsAnswerable(s: State, w: nat, outcome: Outcome)
    requires ValidState(s) && CanBeAnswered(s) && w < |s.waiters|
    ensures CanBeAnswered(EndWaiter(s, w, outcome))
  {
  }

  lemma DropKeepsAnswerable(s: State, w: nat, outcome: Outcome)
    requires ValidState(s) && DistinctIds(s) && CanBeAnswered(s) && w < |s.waiters|
    ensures CanBeAnswered(EndWaiter(Discard(s, s.waiters[w].id), w, outcome))
  {
    forall v | 0 <= v < |s.waiters| && v != w ensures s.waiters[v].id != s.waiters[w].id {
    }
  }

  lemma FailKeepsAnswerable(s: State, reason: string, now: int)
    requires ValidState(s) && CanBeAnswered(s)
    ensures CanBeAnswered(FailAll(s, reason, now))
  {
  }

  lemma AddKeepsAnswerable(s: State, id: string, now: int)
    requires ValidState(s) && CanBeAnswered(s)
    ensures CanRegister(s, id) ==> CanBeAnswered(AddRequest(s, id, now))
    ensures CanBeAnswered(AddWaiter(s, id))
  {
  }

  lemma DispatchKeepsAnswerable(s: State, payload: Payload, now: int)
    requires ValidState(s) && CanBeAnswered(s)
    ensures CanBeAnswered(Step(s, Dispatch(payload, now)))
  {
    if Accepts(s, payload) {
      var id := payload.id.value;
      SettleKeepsAnswerable(s, id, Done(Response(payload.body, Some(now - s.registeredAt[id]))));
    }
  }

  lemma ExpireKeepsAnswerable(s: State, w: nat, now: int)
    requires ValidState(s) && CanBeAnswered(s)
    ensures CanBeAnswered(Step(s, Expire(w, now)))
  {
    if Holds(s, w) {
      SettleKeepsAnswerable(s, s.waiters[w].id, Cancelled);
      EndKeepsAnswerable(Settle(s, s.waiters[w].id, Cancelled), w,
          TimedOut(TimeoutResult(now - s.waiters[w].state.started)));
    }
  }

  lemma ResumeKeepsAnswerable(s: State, w: nat, now: int)
    requires ValidState(s) && DistinctIds(s) && CanBeAnswered(s)
    ensures CanBeAnswered(Step(s, Resume(w, now)))
  {
    if Holds(s, w) {
      var state := s.futures[s.waiters[w].state.future].state;
      DropKeepsAnswerable(s, w, CancelledError);
      if state.Done? {
        DropKeepsAnswerable(s, w, Got(WithDuration(state.result, now - s.waiters[w].state.started)));
      }
    }
  }

  lemma StepKeepsAnswerable(s: State, op: Op)
    requires ValidState(s) && DistinctIds(s) && CanBeAnswered(s)
    ensures CanBeAnswered(Step(s, op))
  {
    match op
    case Register(id, now) => AddKeepsAnswerable(s, id, now);
    case StartWait(id, now) => AddKeepsAnswerable(s, id, now);
    case CancelAll(reason, now) => FailKeepsAnswerable(s, reason, now);
    case Dispatch(payload, now) => DispatchKeepsAnswerable(s, payload, now);
    case Expire(w, now) => ExpireKeepsAnswerable(s, w, now);
    case Resume(w, now) => ResumeKeepsAnswerable(s, w, now);
    case Abandon(w) =>
      if Holds(s, w) { DropKeepsAnswerable(s, w, Abandoned); }
  }

  /**
   With single-use ids no two futures or waiters share an id, no waiter is ever cancelled by
   another, and no waiter is left holding a future that nothing can settle any more.
   */
  lemma {:induction false} SingleUseIsSafe(ops: seq<Op>)
    requires SingleUse(ops)
    ensures DistinctIds(After(ops)) && CanBeAnswered(After(ops))
    ensures forall w :: 0 <= w < |After(ops).waiters| ==> After(ops).waiters[w].state != Ended(CancelledError)
  {
    if ops != [] {
      var n := |ops| - 1;
      var before, op := ops[..n], ops[n];
      SingleUseIsSafe(before);
      UnusedIds(before, op, ops);
      StepKeepsDistinct(After(before), op);
      StepKeepsAnswerable(After(before), op);
    }
    forall w | 0 <= w < |After(ops).waiters| ensures After(ops).waiters[w].state != Ended(CancelledError) {
      NotCancelled(ops, w);
    }
  }

  /** An id that is used for the first time has no future or waiter yet. */
  lemma UnusedIds(before: seq<Op>, op: Op, ops: seq<Op>)
    requires ops == before + [op] && SingleUse(ops)
    ensures op.Register? ==> forall f :: 0 <= f < |After(before).futures| ==> After(before).futures[f].id != op.id
    ensures op.StartWait? ==> forall w :: 0 <= w < |After(before).waiters| ==> After(before).waiters[w].id != op.id
  {
    IdsAreFromOps(before);
    UsedOnce(before, op, ops);
  }

  lemma UsedOnce(before: seq<Op>, op: Op, ops: seq<Op>)
    requires ops == before + [op] && SingleUse(ops)
    ensures op.Register? ==> op.id !in RegisteredIds(before)
    ensures op.StartWait? ==> op.id !in WaitedIds(before)
  {
    var n := |before|;
    assert ops[n] == op;
    forall i | 0 <= i < n && StartsIds(ops, i, n) ensures before[i].id != op.id {
      assert before[i] == ops[i];
    }
    forall o | o in before && o.Register? && op.Register? ensures o.id != op.id {
      var i :| 0 <= i < n && before[i] == o;
      assert StartsIds(ops, i, n);
    }
    forall o | o in before && o.StartWait? && op.StartWait? ensures o.id != op.id {
      var i :| 0 <= i < n && before[i] == o;
      assert StartsIds(ops, i, n);
    }
  }

  lemma CancelledByAnother(ops: seq<Op>, w: nat)
    requires w < |After(ops).waiters| && After(ops).waiters[w].state == Ended(CancelledError)
    ensures SomeoneTimedOut(After(ops), After(ops).waiters[w].id)
  {
    WaitersAreExplained(ops, w);
  }

  lemma NotCancelled(ops: seq<Op>, w: nat)
    requires w < |After(ops).waiters| && DistinctIds(After(ops))
    ensures After(ops).waiters[w].state != Ended(CancelledError)
  {
    if After(ops).waiters[w].state == Ended(CancelledError) {
      CancelledByAnother(ops, w);
    }
  }

  lemma FirstRequest(id: string)
    requires id != ""
    ensures Step(Step(EMPTY, Register(id, 0)), StartWait(id, 0))
         == State(map[id := 0], map[id := 0], [Future(id, Waiting)], [Waiter(id, Holding(0, 0))])
  {
    assert Step(EMPTY, Register(id, 0)) == State(map[id := 0], map[id := 0], [Future(id, Waiting)], []);
  }

  /** Two waiters on one id: when the first times out, the second is cancelled. */
  lemma {:induction false} SharedIdCancels(id: string)
    requires id != ""
    ensures var both := Step(Step(Step(EMPTY, Register(id, 0)), StartWait(id, 0)), StartWait(id, 0));
            var s := Step(Step(both, Expire(0, 9)), Resume(1, 9));
            |s.waiters| == 2 && s.waiters[1] == Waiter(id, Ended(CancelledError))
  {
    FirstRequest(id);
    var holding := Waiter(id, Holding(0, 0));
    var s2 := State(map[id := 0], map[id := 0], [Future(id, Waiting)], [holding]);
    var s3 := Step(s2, StartWait(id, 0));
    assert s3 == s2.(waiters := [holding, holding]);
    var s4 := Step(s3, Expire(0, 9));
    assert s4.futures == [Future(id, Cancelled)] && |s4.waiters| == 2 && s4.waiters[1] == holding;
  }

  lemma AnsweredRequest(id: string, answer: Payload)
    requires id != "" && answer.id == Some(id) && !answer.body.OtherBody?
    ensures Step(Step(Step(EMPTY, Register(id, 0)), StartWait(id, 0)), Dispatch(answer, 1))
         == State(map[], map[], [Future(id, Done(Response(answer.body, Some(1))))], [Waiter(id, Holding(0, 0))])
  {
    FirstRequest(id);
    var s := State(map[id := 0], map[id := 0], [Future(id, Waiting)], [Waiter(id, Holding(0, 0))]);
    assert Accepts(s, answer);
    assert Without(s.pending, id) == map[] && Without(s.registeredAt, id) == map[];
  }

  /**
   An id registered again before the first waiter resumes loses its second registration to the
   first waiter's clean-up: the second future stays unsettled and its response is not accepted.
   */
  lemma {:induction false} ReusedIdLosesItsEntry(id: string, answer: Payload)
    requires id != "" && answer.id == Some(id) && !answer.body.OtherBody?
    ensures var answered := Step(Step(Step(EMPTY, Register(id, 0)), StartWait(id, 0)), Dispatch(answer, 1));
            var s := Step(Step(answered, Register(id, 2)), Resume(0, 3));
            && |s.futures| == 2 && s.futures[1] == Future(id, Waiting)
            && id !in s.pending && !Accepts(s, answer)
  {
    AnsweredRequest(id, answer);
    var done := Future(id, Done(Response(answer.body, Some(1))));
    var s3 := State(map[], map[], [done], [Waiter(id, Holding(0, 0))]);
    assert Step(s3, Register(id, 2))
        == State(map[id := 1], map[id := 2], [done, Future(id, Waiting)], [Waiter(id, Holding(0, 0))]);
  }
}
