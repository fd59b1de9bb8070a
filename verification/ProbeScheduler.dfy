/** The probe scheduler: each cycle probes the next few available nodes, round robin. */
module ProbeScheduler {
  import opened Containers
  import opened Ranking

  function Max(a: nat, b: nat): nat {
    if a >= b then a else b
  }

  /** How many nodes one cycle probes. */
  function BatchSize(maxConcurrent: nat, nodes: nat): nat {
    Min(Max(1, maxConcurrent), nodes)
  }

  function Selection(start: nat, size: nat, nodes: seq<int>): (selected: seq<int>)
    requires nodes != []
    ensures |selected| == size && forall k :: 0 <= k < size ==> selected[k] == nodes[(start + k) % |nodes|]
  {
    seq(size, k requires 0 <= k < size => nodes[(start + k) % |nodes|])
  }

  class Scheduler {
    const maxConcurrent: nat
    var roundRobinIndex: nat

    constructor (maxConcurrent: nat)
      ensures this.maxConcurrent == maxConcurrent && roundRobinIndex == 0
    {
      this.maxConcurrent, roundRobinIndex := maxConcurrent, 0;
    }

    method RunCycle(availableNodes: set<int>) returns (selected: seq<int>)
      modifies this
      ensures selected == Cycle(old(roundRobinIndex), maxConcurrent, SortedInts(availableNodes)).0
      ensures roundRobinIndex == Cycle(old(roundRobinIndex), maxConcurrent, SortedInts(availableNodes)).1
    {
      var nodeIds := SortedInts(availableNodes);
      selected := [];
      if nodeIds == [] {
        return;
      }
      var limit := Max(1, maxConcurrent);
      for offset := 0 to Min(limit, |nodeIds|)
        invariant |selected| == offset
        invariant forall k :: 0 <= k < offset ==> selected[k] == nodeIds[(roundRobinIndex + k) % |nodeIds|]
        invariant roundRobinIndex == old(roundRobinIndex)
      {
        var index := (roundRobinIndex + offset) % |nodeIds|;
        selected := selected + [nodeIds[index]];
      }
      roundRobinIndex := (roundRobinIndex + |selected|) % |nodeIds|;
    }
  }

  // ----- fairness with a stable set of nodes -----

  /** One cycle: the nodes selected and the next index. */
  function Cycle(index: nat, maxConcurrent: nat, nodes: seq<int>): (seq<int>, nat) {
    if nodes == [] then ([], index)
    else
      var size := BatchSize(maxConcurrent, |nodes|);
      (Selection(index, size, nodes), (index + size) % |nodes|)
  }

  /** All that some cycles with the same available nodes select, in order, and the index after them. */
  function Cycles(index: nat, maxConcurrent: nat, nodes: seq<int>, cycles: nat): (seq<int>, nat) {
    if cycles == 0 then ([], index) else
    var before := Cycles(index, maxConcurrent, nodes, cycles - 1);
    var last := Cycle(before.1, maxConcurrent, nodes);
    (before.0 + last.0, last.1)
  }

  /** How often position `i` is probed in `size` consecutive turns from `start`. */
  function Hits(start: nat, size: nat, n: nat, i: nat): nat
    requires n > 0
  {
    if size == 0 then 0 else Hits(start, size - 1, n, i) + if (start + size - 1) % n == i then 1 else 0
  }

  lemma Multiples(k: int, n: nat)
    requires n > 0
    ensures k >= 1 ==> k * n >= n
    ensures k <= -1 ==> k * n <= 0 - n
  {
  }

  lemma DivisionIsUnique(x: int, n: nat, q: int, r: nat)
    requires r < n && x == q * n + r
    ensures x / n == q && x % n == r
  {
    var d, m := x / n, x % n;
    assert x == d * n + m;
    assert (d - q) * n == d * n - q * n;
    Multiples(d - q, n);
  }

  lemma DivideOnce(x: nat, n: nat)
    requires n > 0
    ensures (x + n) / n == x / n + 1 && (x + n) % n == x % n
  {
    var q, r := x / n, x % n;
    assert (q + 1) * n == q * n + n;
    DivisionIsUnique(x + n, n, q + 1, r);
  }

  lemma ModShift(a: nat, b: nat, n: nat, k: nat)
    requires n > 0 && a % n == b % n
    ensures (a + k) % n == (b + k) % n
  {
    ModOfSum(a, n, k);
    ModOfSum(b, n, k);
  }

  lemma ModOfSum(a: nat, n: nat, k: nat)
    requires n > 0
    ensures (a + k) % n == (a % n + k) % n
  {
    var p, r := a / n, a % n;
    var q, m := (r + k) / n, (r + k) % n;
    assert (p + q) * n == p * n + q * n;
    DivisionIsUnique(a + k, n, p + q, m);
  }

  lemma {:induction false} HitsDependOnRemainder(a: nat, b: nat, size: nat, n: nat, i: nat)
    requires n > 0 && a % n == b % n
    ensures Hits(a, size, n, i) == Hits(b, size, n, i)
  {
    if size > 0 {
      HitsDependOnRemainder(a, b, size - 1, n, i);
      ModShift(a, b, n, size - 1);
    }
  }

  lemma {:induction false} HitsAdd(start: nat, first: nat, second: nat, n: nat, i: nat)
    requires n > 0
    ensures Hits(start, first + second, n, i) == Hits(start, first, n, i) + Hits(start + first, second, n, i)
  {
    if second > 0 {
      HitsAdd(start, first, second - 1, n, i);
    }
  }

  lemma SelectionGrows(start: nat, size: nat, nodes: seq<int>)
    requires nodes != []
    ensures Selection(start, size + 1, nodes) == Selection(start, size, nodes) + [nodes[(start + size) % |nodes|]]
  {
  }

  lemma SelectionByRemainder(a: nat, b: nat, size: nat, nodes: seq<int>)
    requires nodes != [] && a % |nodes| == b % |nodes|
    ensures Selection(a, size, nodes) == Selection(b, size, nodes)
  {
    var first, second := Selection(a, size, nodes), Selection(b, size, nodes);
    forall k | 0 <= k < size ensures first[k] == second[k] {
      ModShift(a, b, |nodes|, k);
    }
  }

  lemma {:induction false} SelectionOfTwo(start: nat, first: nat, second: nat, nodes: seq<int>)
    requires nodes != []
    ensures Selection(start, first + second, nodes) ==
              Selection(start, first, nodes) + Selection(start + first, second, nodes)
  {
    if second > 0 {
      SelectionOfTwo(start, first, second - 1, nodes);
      SelectionGrows(start, first + second - 1, nodes);
      SelectionGrows(start + first, second - 1, nodes);
    }
  }

  /** The walk so far and one more cycle from the stored index. */
  lemma WalkOneCycle(start: nat, before: nat, size: nat, index: nat, nodes: seq<int>)
    requires nodes != [] && index % |nodes| == (start + before) % |nodes|
    ensures Selection(start, before, nodes) + Selection(index, size, nodes) == Selection(start, before + size, nodes)
    ensures ((index + size) % |nodes|) % |nodes| == (start + (before + size)) % |nodes|
  {
    SelectionByRemainder(index, start + before, size, nodes);
    SelectionOfTwo(start, before, size, nodes);
    ModShift(index, start + before, |nodes|, size);
    ModOfSum(index + size, |nodes|, 0);
  }

  /** The turns that so many cycles take. */
  function Turns(maxConcurrent: nat, n: nat, cycles: nat): nat {
    if cycles == 0 then 0 else Turns(maxConcurrent, n, cycles - 1) + BatchSize(maxConcurrent, n)
  }

  lemma {:induction false} TurnsAreCyclesTimesSize(maxConcurrent: nat, n: nat, cycles: nat)
    ensures Turns(maxConcurrent, n, cycles) == cycles * BatchSize(maxConcurrent, n)
  {
    if cycles > 0 {
      TurnsAreCyclesTimesSize(maxConcurrent, n, cycles - 1);
    }
  }

  /** Any number of cycles selects as one uninterrupted walk around the ring of nodes. */
  lemma {:induction false} CyclesAreOneWalk(start: nat, maxConcurrent: nat, nodes: seq<int>, cycles: nat)
    requires nodes != []
    ensures var turns := Turns(maxConcurrent, |nodes|, cycles);
            && Cycles(start, maxConcurrent, nodes, cycles).0 == Selection(start, turns, nodes)
            && Cycles(start, maxConcurrent, nodes, cycles).1 % |nodes| == (start + turns) % |nodes|
  {
    if cycles > 0 {
      CyclesAreOneWalk(start, maxConcurrent, nodes, cycles - 1);
      WalkOneCycle(start, Turns(maxConcurrent, |nodes|, cycles - 1), BatchSize(maxConcurrent, |nodes|),
        Cycles(start, maxConcurrent, nodes, cycles - 1).1, nodes);
    }
  }

  lemma Turn(t: nat, n: nat)
    requires t < 2 * n
    ensures t % n == if t < n then t else t - n
  {
    DivisionIsUnique(t, n, if t < n then 0 else 1, if t < n then t else t - n);
  }

  /** Fewer than `n` consecutive turns never meet a position twice, and `n` meet each once. */
  lemma {:induction false} HitsWithinOneRound(start: nat, size: nat, n: nat, i: nat)
    requires i < n && size <= n && start < n
    ensures Hits(start, size, n, i) == if start <= i < start + size || i + n < start + size then 1 else 0
  {
    if size > 0 {
      HitsWithinOneRound(start, size - 1, n, i);
      Turn(start + size - 1, n);
    }
  }

  lemma HitsInPartOfARound(start: nat, size: nat, n: nat, i: nat)
    requires i < n && size <= n
    ensures Hits(start, size, n, i) <= 1 && (size == n ==> Hits(start, size, n, i) == 1)
  {
    ModOfSum(start, n, 0);
    HitsDependOnRemainder(start, start % n, size, n, i);
    HitsWithinOneRound(start % n, size, n, i);
  }

  lemma SharesOfPart(turns: nat, n: nat)
    requires turns < n
    ensures turns / n == 0 && (turns + n - 1) / n == if turns == 0 then 0 else 1
  {
    DivisionIsUnique(turns, n, 0, turns);
    if turns == 0 {
      DivisionIsUnique(n - 1, n, 0, n - 1);
    } else {
      DivisionIsUnique(turns + n - 1, n, 1, turns - 1);
    }
  }

  lemma {:induction false} HitsAreEven(start: nat, turns: nat, n: nat, i: nat)
    requires i < n
    ensures turns / n <= Hits(start, turns, n, i) <= (turns + n - 1) / n
    decreases turns
  {
    if turns < n {
      SharesOfPart(turns, n);
      HitsInPartOfARound(start, turns, n, i);
    } else {
      HitsInPartOfARound(start, n, n, i);
      HitsAdd(start, n, turns - n, n, i);
      HitsAreEven(start + n, turns - n, n, i);
      DivideOnce(turns - n, n);
      DivideOnce(turns - 1, n);
    }
  }

  lemma CeilingCovers(n: nat, size: nat)
    requires size > 0
    ensures (n + size - 1) / size * size >= n
  {
    var x := n + size - 1;
    assert x == x / size * size + x % size;
  }

  lemma AtLeastOne(x: nat, n: nat)
    requires 0 < n <= x
    ensures x / n >= 1
  {
    DivideOnce(x - n, n);
  }

  lemma CountOneMore(s: seq<int>, x: int, y: int)
    ensures multiset(s + [x])[y] == multiset(s)[y] + if x == y then 1 else 0
  {
  }

  predicate Increasing(nodes: seq<int>) {
    forall a, b :: 0 <= a < b < |nodes| ==> nodes[a] < nodes[b]
  }

  lemma CountNode(selected: seq<int>, nodes: seq<int>, j: nat, i: nat)
    requires j < |nodes| && i < |nodes| && Increasing(nodes)
    ensures multiset(selected + [nodes[j]])[nodes[i]] == multiset(selected)[nodes[i]] + if j == i then 1 else 0
  {
    CountOneMore(selected, nodes[j], nodes[i]);
    if nodes[j] == nodes[i] {
      PositionsAreUnique(nodes, j, i);
    }
  }

  lemma CountTurn(start: nat, size: nat, nodes: seq<int>, i: nat)
    requires i < |nodes| && Increasing(nodes)
    ensures multiset(Selection(start, size + 1, nodes))[nodes[i]] ==
              multiset(Selection(start, size, nodes))[nodes[i]] + if (start + size) % |nodes| == i then 1 else 0
  {
    SelectionGrows(start, size, nodes);
    CountNode(Selection(start, size, nodes), nodes, (start + size) % |nodes|, i);
  }

  lemma HitTurn(start: nat, size: nat, n: nat, i: nat)
    requires n > 0
    ensures Hits(start, size + 1, n, i) == Hits(start, size, n, i) + if (start + size) % n == i then 1 else 0
  {
  }

  /** A cycle probes the nodes at the hit positions: the selection counts `Hits` times each node. */
  lemma {:induction false} SelectionCounts(start: nat, size: nat, nodes: seq<int>, i: nat)
    requires i < |nodes| && Increasing(nodes)
    ensures multiset(Selection(start, size, nodes))[nodes[i]] == Hits(start, size, |nodes|, i)
  {
    if size > 0 {
      SelectionCounts(start, size - 1, nodes, i);
      CountTurn(start, size - 1, nodes, i);
      HitTurn(start, size - 1, |nodes|, i);
    }
  }

  /** The floor or the ceiling of an even share of the turns. */
  predicate EvenShare(count: int, turns: int, n: nat)
    requires n > 0
  {
    turns / n <= count <= (turns + n - 1) / n
  }

  lemma SharesAreEven(start: nat, turns: nat, nodes: seq<int>, i: nat)
    requires i < |nodes| && Increasing(nodes)
    ensures EvenShare(multiset(Selection(start, turns, nodes))[nodes[i]], turns, |nodes|)
  {
    SelectionCounts(start, turns, nodes, i);
    HitsAreEven(start, turns, |nodes|, i);
  }

  lemma FairTurns(start: nat, maxConcurrent: nat, available: set<int>, cycles: nat, node: int)
    requires node in available
    ensures |available| > 0
    ensures var selected := Cycles(start, maxConcurrent, SortedInts(available), cycles).0;
            EvenShare(multiset(selected)[node], Turns(maxConcurrent, |available|, cycles), |available|)
  {
    var nodes := SortedInts(available);
    var i :| 0 <= i < |nodes| && nodes[i] == node;
    CyclesAreOneWalk(start, maxConcurrent, nodes, cycles);
    SharesAreEven(start, Turns(maxConcurrent, |nodes|, cycles), nodes, i);
  }

  /**
   Fairness: after any number of cycles from any starting index, each of the n available nodes has
   been selected either the floor or the ceiling of its exact share `cycles * size / n`, where
   `size` is n or the limit, whichever is smaller, and a limit of zero counts as one.
   */
  lemma {:induction false} RoundRobinIsFair(start: nat, maxConcurrent: nat, available: set<int>, cycles: nat, node: int)
    requires node in available
    ensures |available| > 0
    ensures var n, limit := |available|, if maxConcurrent == 0 then 1 else maxConcurrent;
            var selected := Cycles(start, maxConcurrent, SortedInts(available), cycles).0;
            var size := if n < limit then n else limit;
            EvenShare(multiset(selected)[node], cycles * size, n)
  {
    FairTurns(start, maxConcurrent, available, cycles, node);
    TurnsAreCyclesTimesSize(maxConcurrent, |available|, cycles);
  }

  /** `ceil(n / size)`: the cycles of one round. */
  function Window(maxConcurrent: nat, n: nat): nat
    requires n > 0
  {
    (n + BatchSize(maxConcurrent, n) - 1) / BatchSize(maxConcurrent, n)
  }

  lemma WindowCovers(maxConcurrent: nat, n: nat)
    requires n > 0
    ensures Turns(maxConcurrent, n, Window(maxConcurrent, n)) >= n
  {
    TurnsAreCyclesTimesSize(maxConcurrent, n, Window(maxConcurrent, n));
    CeilingCovers(n, BatchSize(maxConcurrent, n));
  }

  lemma SomeShare(count: nat, turns: nat, n: nat)
    requires 0 < n <= turns && EvenShare(count, turns, n)
    ensures count >= 1
  {
    AtLeastOne(turns, n);
  }

  lemma NoneTwice(start: nat, size: nat, nodes: seq<int>, i: nat)
    requires i < |nodes| && Increasing(nodes) && size <= |nodes|
    ensures multiset(Selection(start, size, nodes))[nodes[i]] <= 1
  {
    SelectionCounts(start, size, nodes, i);
    HitsInPartOfARound(start, size, |nodes|, i);
  }

  lemma WindowSelects(start: nat, maxConcurrent: nat, available: set<int>, node: int)
    requires node in available
    ensures |available| > 0
    ensures node in Cycles(start, maxConcurrent, SortedInts(available), Window(maxConcurrent, |available|)).0
  {
    var nodes, n := SortedInts(available), |available|;
    var window := Window(maxConcurrent, n);
    FairTurns(start, maxConcurrent, available, window, node);
    WindowCovers(maxConcurrent, n);
    SomeShare(multiset(Cycles(start, maxConcurrent, nodes, window).0)[node], Turns(maxConcurrent, n, window), n);
  }

  /** Every window of `ceil(n / size)` cycles selects every node, and no cycle selects one twice. */
  lemma {:induction false} EveryWindowProbesAll(start: nat, maxConcurrent: nat, available: set<int>, node: int)
    requires node in available
    ensures |available| > 0
    ensures var n, limit := |available|, if maxConcurrent == 0 then 1 else maxConcurrent;
            var size := if n < limit then n else limit;
            node in Cycles(start, maxConcurrent, SortedInts(available), (n + size - 1) / size).0
    ensures multiset(Cycle(start, maxConcurrent, SortedInts(available)).0)[node] <= 1
  {
    WindowSelects(start, maxConcurrent, available, node);
    var nodes := SortedInts(available);
    var i :| 0 <= i < |nodes| && nodes[i] == node;
    NoneTwice(start, BatchSize(maxConcurrent, |nodes|), nodes, i);
  }

  lemma StepsAhead(index: nat, i: nat, n: nat)
    requires i < n
    ensures (index + (i - index) % n) % n == i
  {
    var q, ahead := (i - index) / n, (i - index) % n;
    assert i - index == q * n + ahead;
    assert index + ahead == (0 - q) * n + i;
    DivisionIsUnique(index + ahead, n, 0 - q, i);
  }

  lemma StepsAheadAreUnique(index: nat, k: nat, n: nat)
    requires k < n
    ensures ((index + k) % n - index) % n == k
  {
    var p, i := (index + k) / n, (index + k) % n;
    assert index + k == p * n + i;
    assert i - index == (0 - p) * n + k;
    DivisionIsUnique(i - index, n, 0 - p, k);
  }

  /** Which nodes one cycle probes: those whose position is less than `size` steps ahead of the index. */
  lemma {:induction false} ProbedExactlyWhen(index: nat, size: nat, nodes: seq<int>, i: nat)
    requires i < |nodes| && size <= |nodes| && Increasing(nodes)
    ensures nodes[i] in Selection(index, size, nodes) <==> (i - index) % |nodes| < size
  {
    var selected := Selection(index, size, nodes);
    if (i - index) % |nodes| < size {
      StepsAhead(index, i, |nodes|);
      assert selected[(i - index) % |nodes|] == nodes[i];
    }
    if nodes[i] in selected {
      var k :| 0 <= k < size && selected[k] == nodes[i];
      PositionsAreUnique(nodes, (index + k) % |nodes|, i);
      StepsAheadAreUnique(index, k, |nodes|);
    }
  }

  lemma PositionsAreUnique(nodes: seq<int>, a: nat, b: nat)
    requires Increasing(nodes) && a < |nodes| && b < |nodes| && nodes[a] == nodes[b]
    ensures a == b
  {
  }

  // ----- fairness needs stability -----

  /** The sorted nodes available at each cycle alternate between {1, 2} and {2, 3}. */
  function FlappingNodes(cycle: nat): seq<int> {
    if cycle % 2 == 0 then [1, 2] else [2, 3]
  }

  lemma SortedPair(a: int, b: int)
    requires a < b
    ensures SortedInts({a, b}) == [a, b]
  {
    var r := SortedInts({a, b});
    assert |{a, b}| == 2;
    assert r[0] in r && r[1] in r && a in {a, b} && b in {a, b};
  }

  /** The index before each of these cycles, one node being probed at a time. */
  function FlappingIndex(cycle: nat): nat {
    if cycle == 0 then 0 else Cycle(FlappingIndex(cycle - 1), 1, FlappingNodes(cycle - 1)).1
  }

  lemma {:induction false} FlappingIndexAlternates(cycle: nat)
    ensures FlappingIndex(cycle) == cycle % 2
  {
    if cycle > 0 {
      FlappingIndexAlternates(cycle - 1);
    }
  }

  /** A node that is always available can wait for ever when the others come and go. */
  lemma {:induction false} AlwaysAvailableNodeCanStarve(cycle: nat)
    ensures 2 in FlappingNodes(cycle) && FlappingNodes(cycle) in [SortedInts({1, 2}), SortedInts({2, 3})]
    ensures FlappingIndex(cycle) == cycle % 2
    ensures 2 !in Cycle(FlappingIndex(cycle), 1, FlappingNodes(cycle)).0
  {
    SortedPair(1, 2);
    SortedPair(2, 3);
    FlappingIndexAlternates(cycle);
  }
}
