/** Per-subject histories of decided transitions, oldest first. */
module Histories {
  import opened Containers

  type Log<K(==), E> = map<K, seq<E>>

  /** A subject without an entry has no history yet. */
  function Of<K, E>(log: Log<K, E>, k: K): seq<E> {
    if k in log then log[k] else []
  }

  function Record<K(!new), E>(log: Log<K, E>, k: K, more: seq<E>): (r: Log<K, E>)
    ensures forall x :: Of(r, x) == if x == k then Of(log, k) + more else Of(log, x)
  {
    log[k := Of(log, k) + more]
  }

  /** The last of the signals; `before` came before them, if anything did. */
  function Latest(before: Option<bool>, signals: seq<bool>): Option<bool> {
    if signals == [] then before else Some(signals[|signals| - 1])
  }

  /** The signals without repetitions of the one before. */
  function Changes(before: Option<bool>, signals: seq<bool>): seq<bool>
    decreases |signals|
  {
    if signals == [] then [] else
    (if before == Some(signals[0]) then [] else [signals[0]]) + Changes(Some(signals[0]), signals[1..])
  }

  lemma Regroup(a: seq<bool>, b: seq<bool>, c: seq<bool>)
    ensures a + (b + c) == a + b + c
  {
  }

  lemma {:induction false} ChangesAppend(before: Option<bool>, signals: seq<bool>, more: seq<bool>)
    ensures Changes(before, signals + more) == Changes(before, signals) + Changes(Latest(before, signals), more)
    decreases |signals|
  {
    if signals == [] {
      assert signals + more == more;
      assert [] + Changes(before, more) == Changes(before, more);
    } else {
      var first, rest := signals[0], signals[1..];
      assert (signals + more)[0] == first && (signals + more)[1..] == rest + more;
      ChangesAppend(Some(first), rest, more);
      assert Latest(Some(first), rest) == Latest(before, signals);
      Regroup(if before == Some(first) then [] else [first], Changes(Some(first), rest),
        Changes(Latest(before, signals), more));
    }
  }

  lemma LatestAppend(before: Option<bool>, signals: seq<bool>, more: seq<bool>)
    ensures Latest(before, signals + more) == Latest(Latest(before, signals), more)
  {
  }
}
