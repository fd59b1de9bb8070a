/**
 The observer's reconnect loop: how long it waits after each session. Times are seconds.
 */
module Reconnect {

  /** How one session ended, and whether the observer was still meant to run then. */
  datatype Session = Session(failed: bool, running: bool)

  function Least(a: real, b: real): real {
    if a <= b then a else b
  }

  function Pow2(k: nat): nat {
    if k == 0 then 1 else 2 * Pow2(k - 1)
  }

  /** How many sessions directly before the end failed in a row. */
  function FailedRun(sessions: seq<Session>): (k: nat)
    ensures k <= |sessions|
  {
    if sessions == [] || !sessions[|sessions| - 1].failed then 0
    else 1 + FailedRun(sessions[..|sessions| - 1])
  }

  /** How many sessions take place: a session is followed by another while the observer runs. */
  function Started(sessions: seq<Session>): (n: nat)
    ensures n <= |sessions|
    ensures forall i :: 0 <= i < n - 1 ==> sessions[i].running
    ensures n < |sessions| ==> n > 0 && !sessions[n - 1].running
  {
    if sessions == [] then 0
    else if !sessions[0].running then 1
    else 1 + Started(sessions[1..])
  }

  /** The loop's `backoff` after these sessions. */
  function Backoff(sessions: seq<Session>, initial: real, max: real): real {
    if sessions == [] || !sessions[|sessions| - 1].failed then initial
    else Least(Backoff(sessions[..|sessions| - 1], initial, max) * 2.0, max)
  }

  /** The wait after the last of `sessions`; 0 where there is none. */
  function Wait(sessions: seq<Session>, initial: real, max: real): real
    requires sessions != []
  {
    var last := sessions[|sessions| - 1];
    if last.failed then Backoff(sessions[..|sessions| - 1], initial, max)
    else if last.running then initial
    else 0.0
  }

  /** `min(initial * 2^k, max)`. */
  function Capped(k: nat, initial: real, max: real): real {
    Least(initial * Pow2(k) as real, max)
  }

  lemma CappedTwice(k: nat, initial: real, max: real)
    requires initial > 0.0 && max > 0.0
    ensures Least(Capped(k, initial, max) * 2.0, max) == Capped(k + 1, initial, max)
    ensures Least(initial * 2.0, max) == Capped(1, initial, max) && Capped(0, initial, max) == Least(initial, max)
  {
    var p := initial * Pow2(k) as real;
    assert initial * Pow2(k + 1) as real == p * 2.0;
    assert Pow2(1) == 2 && Pow2(0) == 1;
  }

  /** Repeated doubling under the cap is doubling capped once; only the untouched start is not capped. */
  lemma {:induction false} BackoffIsCapped(sessions: seq<Session>, initial: real, max: real)
    requires initial > 0.0 && max > 0.0
    ensures var k := FailedRun(sessions);
            Backoff(sessions, initial, max) == if k == 0 then initial else Capped(k, initial, max)
    decreases |sessions|
  {
    if sessions != [] && sessions[|sessions| - 1].failed {
      BackoffIsCapped(sessions[..|sessions| - 1], initial, max);
      CappedTwice(FailedRun(sessions[..|sessions| - 1]), initial, max);
    }
  }

  /**
   The wait after a failed session with `k` failures directly before it is `min(initial * 2^k, max)`
   if and only if `initial <= max` or `k >= 1`: a first failure waits `initial` even above `max`.
   */
  lemma {:induction false} CappedDoubling(sessions: seq<Session>, initial: real, max: real)
    requires initial > 0.0 && max > 0.0 && sessions != [] && sessions[|sessions| - 1].failed
    ensures var k := FailedRun(sessions) - 1;
            Wait(sessions, initial, max) == Capped(k, initial, max) <==> initial <= max || k >= 1
  {
    BackoffIsCapped(sessions[..|sessions| - 1], initial, max);
    CappedTwice(0, initial, max);
  }

  /** `_run`: one wait for each session that takes place. */
  method RunObserver(initial: real, max: real, sessions: seq<Session>) returns (waits: seq<real>)
    requires initial > 0.0 && max > 0.0
    ensures |waits| == Started(sessions)
    ensures forall i :: 0 <= i < |waits| ==> waits[i] == Wait(sessions[..i + 1], initial, max)
    ensures forall i :: 0 <= i < |waits| && sessions[i].failed ==>
              var k := FailedRun(sessions[..i + 1]) - 1;
              waits[i] == Capped(k, initial, max) <==> initial <= max || k >= 1
    ensures forall i :: 0 <= i < |waits| && !sessions[i].failed ==>
              waits[i] == if sessions[i].running then initial else 0.0
  {
    waits := [];
    var backoff := initial;
    var running := true;
    var i := 0;
    while i < |sessions| && running
      invariant 0 <= i <= |sessions| && |waits| == i
      invariant running ==> i <= Started(sessions) && (i < |sessions| ==> i < Started(sessions))
      invariant !running ==> i == Started(sessions)
      invariant backoff == Backoff(sessions[..i], initial, max)
      invariant forall j :: 0 <= j < i ==> waits[j] == Wait(sessions[..j + 1], initial, max)
      decreases |sessions| - i
    {
      var session := sessions[i];
      assert sessions[..i + 1][..i] == sessions[..i];
      running := session.running;
      if session.failed {
        waits := waits + [backoff];
        backoff := Least(backoff * 2.0, max);
      } else {
        backoff := initial;
        waits := waits + [if running then backoff else 0.0];
      }
      i := i + 1;
    }
    forall j | 0 <= j < |waits| && sessions[j].failed
      ensures var k := FailedRun(sessions[..j + 1]) - 1;
              waits[j] == Capped(k, initial, max) <==> initial <= max || k >= 1
    {
      CappedDoubling(sessions[..j + 1], initial, max);
    }
  }

  lemma {:induction false} Pow2Grows(k: nat)
    ensures Pow2(k) >= k + 1
  {
    if k > 0 {
      Pow2Grows(k - 1);
    }
  }

  lemma CapIsReached(k: nat, initial: real, max: real)
    requires initial > 0.0 && max > 0.0 && k as real >= max / initial
    ensures Capped(k, initial, max) == max
  {
    Pow2Grows(k);
    assert Pow2(k) as real >= k as real;
    assert initial * Pow2(k) as real >= initial * k as real >= max;
  }

  /** A server that keeps failing is retried every `max` seconds from some point on. */
  lemma {:induction false} WaitsSettle(sessions: seq<Session>, initial: real, max: real)
    requires initial > 0.0 && max > 0.0 && sessions != [] && sessions[|sessions| - 1].failed
    requires FailedRun(sessions) > 1 && (FailedRun(sessions) - 1) as real >= max / initial
    ensures Wait(sessions, initial, max) == max
  {
    BackoffIsCapped(sessions[..|sessions| - 1], initial, max);
    CapIsReached(FailedRun(sessions) - 1, initial, max);
  }
}
