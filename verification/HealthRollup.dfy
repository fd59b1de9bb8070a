/**
 Rolling up health: the worst state wins and brings the reasons of everything in that state. The
 dashboard has a second rollup over state names.
 */
module HealthRollup {

  datatype State = Critical | Degraded | Warning | Unknown | Healthy

  /** A health status, or one rule's candidate. */
  datatype Status = Status(state: State, reasons: seq<string>)

  const INSUFFICIENT := Status(Unknown, ["insufficient_data"])

  /** `state_rank`: smaller is worse. */
  function Rank(s: State): nat {
    match s
    case Critical => 0
    case Degraded => 1
    case Warning => 2
    case Unknown => 3
    case Healthy => 4
  }

  predicate AtLeastAsBad(s: State, t: State) {
    Rank(s) <= Rank(t)
  }

  function Worse(s: State, t: State): State {
    if Rank(t) < Rank(s) then t else s
  }

  /** `pick_worst`. */
  function PickWorst(states: seq<State>): State {
    if states == [] then Unknown
    else if |states| == 1 then states[0]
    else Worse(PickWorst(states[..|states| - 1]), states[|states| - 1])
  }

  /** It is one of the states, and none is worse. */
  lemma {:induction false} WorstIsWorst(states: seq<State>)
    requires states != []
    ensures PickWorst(states) in states
    ensures forall s :: s in states ==> AtLeastAsBad(PickWorst(states), s)
  {
    var n := |states| - 1;
    if n > 0 {
      WorstIsWorst(states[..n]);
      assert states == states[..n] + [states[n]];
    }
  }

  lemma {:induction false} WorstOfConcat(a: seq<State>, b: seq<State>)
    requires a != [] && b != []
    ensures PickWorst(a + b) == Worse(PickWorst(a), PickWorst(b))
  {
    var n := |b| - 1;
    assert (a + b)[..|a + b| - 1] == a + b[..n];
    if n == 0 {
      assert a + b[..0] == a;
    } else {
      WorstOfConcat(a, b[..n]);
    }
  }

  /** If everything in `a` is matched by something at least as bad in `b`, so is the worst. */
  lemma WorstIsMonotone(a: seq<State>, b: seq<State>)
    requires a != [] && b != []
    requires forall s :: s in a ==> exists t :: t in b && AtLeastAsBad(t, s)
    ensures AtLeastAsBad(PickWorst(b), PickWorst(a))
  {
    WorstIsWorst(a);
    WorstIsWorst(b);
  }

  // ----- reasons -----

  /** First occurrences, in order. */
  function Distinct<T(==)>(xs: seq<T>): seq<T> {
    if xs == [] then [] else
    var before, x := xs[..|xs| - 1], xs[|xs| - 1];
    if x in before then Distinct(before) else Distinct(before) + [x]
  }

  /** The same members, none twice. */
  lemma {:induction false} DistinctMembers<T>(xs: seq<T>)
    ensures forall x :: x in Distinct(xs) <==> x in xs
    ensures forall i, j :: 0 <= i < j < |Distinct(xs)| ==> Distinct(xs)[i] != Distinct(xs)[j]
  {
    if xs != [] {
      var before, x := xs[..|xs| - 1], xs[|xs| - 1];
      DistinctMembers(before);
      assert xs == before + [x];
    }
  }

  lemma DistinctAppend<T>(xs: seq<T>, x: T)
    ensures Distinct(xs + [x]) == if x in xs then Distinct(xs) else Distinct(xs) + [x]
  {
    assert (xs + [x])[..|xs|] == xs;
  }

  /** A list without repetitions is its own list of first occurrences. */
  lemma {:induction false} DistinctOfDistinct<T>(xs: seq<T>)
    ensures Distinct(Distinct(xs)) == Distinct(xs)
  {
    if xs != [] {
      var before, x := xs[..|xs| - 1], xs[|xs| - 1];
      DistinctOfDistinct(before);
      DistinctMembers(before);
      DistinctAppend(Distinct(before), x);
    }
  }

  lemma AppendToBoth<T>(p: seq<T>, q: seq<T>, x: T)
    requires Distinct(p) == Distinct(q)
    ensures Distinct(p + [x]) == Distinct(q + [x])
  {
    DistinctMembers(p);
    DistinctMembers(q);
    assert x in p <==> x in Distinct(p);
    DistinctAppend(p, x);
    DistinctAppend(q, x);
  }

  lemma AppendOld<T>(p: seq<T>, x: T)
    requires x in p
    ensures Distinct(p + [x]) == Distinct(p)
  {
    DistinctAppend(p, x);
  }

  /** `db` stands for the distinct members of `b`, `p` for what comes before them. */
  lemma PartsAppend<T>(p: seq<T>, db: seq<T>, ab: seq<T>, b: seq<T>, x: T)
    requires db == Distinct(b) && Distinct(p + db) == Distinct(ab)
    requires forall y :: y in b ==> y in ab
    ensures Distinct(p + Distinct(b + [x])) == Distinct(ab + [x])
  {
    DistinctAppend(b, x);
    if x in b {
      AppendOld(ab, x);
    } else {
      assert p + (db + [x]) == (p + db) + [x];
      AppendToBoth(p + db, ab, x);
    }
  }

  /** Repetitions may be dropped from the parts before they are joined. */
  lemma {:induction false} DistinctOfParts<T>(a: seq<T>, b: seq<T>)
    ensures Distinct(Distinct(a) + Distinct(b)) == Distinct(a + b)
    decreases |b|
  {
    if b == [] {
      assert a + b == a && Distinct(a) + [] == Distinct(a);
      DistinctOfDistinct(a);
    } else {
      var n := |b| - 1;
      DistinctOfParts(a, b[..n]);
      PartsAppend(Distinct(a), Distinct(b[..n]), a + b[..n], b[..n], b[n]);
      SplitLast(a, b);
    }
  }

  lemma SplitLast<T>(a: seq<T>, b: seq<T>)
    requires b != []
    ensures var n := |b| - 1; b == b[..n] + [b[n]] && a + b == a + b[..n] + [b[n]]
  {
  }

  /** The reasons of every status in state `s`, joined. */
  function ReasonsAt(statuses: seq<Status>, s: State): seq<string> {
    if statuses == [] then [] else
    var last := statuses[|statuses| - 1];
    ReasonsAt(statuses[..|statuses| - 1], s) + if last.state == s then last.reasons else []
  }

  lemma ReasonsOfLast(statuses: seq<Status>, last: Status, s: State)
    ensures ReasonsAt(statuses + [last], s) == ReasonsAt(statuses, s) + if last.state == s then last.reasons else []
  {
    assert (statuses + [last])[..|statuses|] == statuses;
  }

  lemma {:induction false} ReasonsOfConcat(a: seq<Status>, b: seq<Status>, s: State)
    ensures ReasonsAt(a + b, s) == ReasonsAt(a, s) + ReasonsAt(b, s)
  {
    if b == [] {
      assert a + b == a;
    } else {
      var n := |b| - 1;
      ReasonsOfConcat(a, b[..n], s);
      assert a + b == a + b[..n] + [b[n]];
      ReasonsOfLast(a + b[..n], b[n], s);
    }
  }

  lemma {:induction false} NoReasonsElsewhere(statuses: seq<Status>, s: State)
    requires forall i :: 0 <= i < |statuses| ==> statuses[i].state != s
    ensures ReasonsAt(statuses, s) == []
  {
    if statuses != [] {
      NoReasonsElsewhere(statuses[..|statuses| - 1], s);
    }
  }

  // ----- merging -----

  function States(statuses: seq<Status>): seq<State> {
    seq(|statuses|, i requires 0 <= i < |statuses| => statuses[i].state)
  }

  function WorstOf(statuses: seq<Status>): State {
    PickWorst(States(statuses))
  }

  /** Worst state wins, with the distinct reasons given for that state in order. */
  function Merge(statuses: seq<Status>): Status {
    if statuses == [] then INSUFFICIENT
    else
      var worst := WorstOf(statuses);
      Status(worst, Distinct(ReasonsAt(statuses, worst)))
  }

  /** The inner loop of both merges: append what is new. */
  method AppendNew(reasons: seq<string>, more: seq<string>, ghost joined: seq<string>) returns (r: seq<string>)
    requires reasons == Distinct(joined)
    ensures r == Distinct(joined + more)
  {
    r := reasons;
    assert joined + more[..0] == joined;
    for i := 0 to |more|
      invariant r == Distinct(joined + more[..i])
    {
      DistinctAppend(joined + more[..i], more[i]);
      DistinctMembers(joined + more[..i]);
      assert joined + more[..i + 1] == joined + more[..i] + [more[i]];
      if more[i] !in r {
        r := r + [more[i]];
      }
    }
    assert more[..|more|] == more;
  }

  /** `merge_health`. */
  method MergeHealth(statuses: seq<Status>) returns (r: Status)
    ensures r == Merge(statuses)
  {
    if statuses == [] {
      return INSUFFICIENT;
    }
    var worst := PickWorst(States(statuses));
    var reasons: seq<string> := [];
    for i := 0 to |statuses|
      invariant reasons == Distinct(ReasonsAt(statuses[..i], worst))
    {
      var status := statuses[i];
      assert statuses[..i + 1][..i] == statuses[..i];
      assert ReasonsAt(statuses[..i], worst) + [] == ReasonsAt(statuses[..i], worst);
      if status.state == worst {
        reasons := AppendNew(reasons, status.reasons, ReasonsAt(statuses[..i], worst));
      }
    }
    assert statuses[..|statuses|] == statuses;
    r := Status(worst, reasons);
  }

  /** One rule's `(state, reasons)` pair as a status. */
  function AsStatuses(candidates: seq<(State, seq<string>)>): (r: seq<Status>)
    ensures |r| == |candidates|
    ensures forall i :: 0 <= i < |r| ==> r[i] == Status(candidates[i].0, candidates[i].1)
  {
    if candidates == [] then [] else
    var n := |candidates| - 1;
    AsStatuses(candidates[..n]) + [Status(candidates[n].0, candidates[n].1)]
  }

  /** `health_from_candidates`: the same fold over pairs. */
  method HealthFromCandidates(candidates: seq<(State, seq<string>)>) returns (r: Status)
    ensures r == Merge(AsStatuses(candidates))
  {
    if candidates == [] {
      return INSUFFICIENT;
    }
    ghost var statuses := AsStatuses(candidates);
    var states := seq(|candidates|, i requires 0 <= i < |candidates| => candidates[i].0);
    assert states == States(statuses);
    var worst := PickWorst(states);
    var reasons: seq<string> := [];
    for i := 0 to |candidates|
      invariant reasons == Distinct(ReasonsAt(statuses[..i], worst))
    {
      var (state, more) := candidates[i];
      assert statuses[..i + 1][..i] == statuses[..i];
      assert ReasonsAt(statuses[..i], worst) + [] == ReasonsAt(statuses[..i], worst);
      if state == worst {
        reasons := AppendNew(reasons, more, ReasonsAt(statuses[..i], worst));
      }
    }
    assert statuses[..|statuses|] == statuses;
    r := Status(worst, reasons);
  }

  // ----- grouping -----

  function Flatten(groups: seq<seq<Status>>): seq<Status> {
    if groups == [] then [] else Flatten(groups[..|groups| - 1]) + groups[|groups| - 1]
  }

  function MergeEach(groups: seq<seq<Status>>): seq<Status> {
    seq(|groups|, i requires 0 <= i < |groups| => Merge(groups[i]))
  }

  lemma MergeLast(groups: seq<seq<Status>>)
    requires groups != []
    ensures var n := |groups| - 1; MergeEach(groups) == MergeEach(groups[..n]) + [Merge(groups[n])]
  {
  }

  predicate NonEmpty(groups: seq<seq<Status>>) {
    forall i :: 0 <= i < |groups| ==> groups[i] != []
  }

  lemma WorstOfTwo(a: seq<Status>, b: seq<Status>)
    requires a != [] && b != []
    ensures WorstOf(a + b) == Worse(WorstOf(a), WorstOf(b))
  {
    assert States(a + b) == States(a) + States(b);
    WorstOfConcat(States(a), States(b));
  }

  lemma WorstOfOne(s: Status)
    ensures WorstOf([s]) == s.state
  {
    assert States([s]) == [s.state];
  }

  lemma AddGroup(each: seq<Status>, flat: seq<Status>, group: seq<Status>)
    requires group != [] && (each == [] <==> flat == [])
    requires each != [] ==> WorstOf(each) == WorstOf(flat)
    ensures WorstOf(each + [Merge(group)]) == WorstOf(flat + group)
  {
    WorstOfOne(Merge(group));
    if each == [] {
      assert each + [Merge(group)] == [Merge(group)] && flat + group == group;
    } else {
      WorstOfTwo(each, [Merge(group)]);
      WorstOfTwo(flat, group);
    }
  }

  /** The worst of the groups' worst is the worst of all. */
  lemma {:induction false} GroupedState(groups: seq<seq<Status>>)
    requires NonEmpty(groups)
    ensures groups == [] <==> Flatten(groups) == []
    ensures groups != [] ==> WorstOf(MergeEach(groups)) == WorstOf(Flatten(groups))
    decreases |groups|
  {
    if groups != [] {
      var n := |groups| - 1;
      GroupedState(groups[..n]);
      MergeLast(groups);
      AddGroup(MergeEach(groups[..n]), Flatten(groups[..n]), groups[n]);
    }
  }

  /** No group is worse than `s`. */
  predicate NoneWorse(groups: seq<seq<Status>>, s: State) {
    forall i :: 0 <= i < |groups| ==> AtLeastAsBad(s, WorstOf(groups[i]))
  }

  lemma LastGroupReasons(group: seq<Status>, s: State)
    requires group != [] && AtLeastAsBad(s, WorstOf(group))
    ensures (if Merge(group).state == s then Merge(group).reasons else []) == Distinct(ReasonsAt(group, s))
  {
    WorstIsWorst(States(group));
    if WorstOf(group) != s {
      forall i | 0 <= i < |group| ensures group[i].state != s {
        assert States(group)[i] in States(group);
      }
      NoReasonsElsewhere(group, s);
    }
  }

  /** Joining one more list, repetitions dropped early or late. */
  lemma JoinOneMore<T>(a: seq<T>, b: seq<T>, c: seq<T>)
    requires Distinct(a) == Distinct(b)
    ensures Distinct(a + Distinct(c)) == Distinct(b + c)
  {
    DistinctOfParts(a, Distinct(c));
    DistinctOfDistinct(c);
    DistinctOfParts(b, c);
  }

  /** Against any state no better than the groups' own, grouped and flat reasons agree. */
  lemma {:induction false} GroupedReasons(groups: seq<seq<Status>>, s: State)
    requires NonEmpty(groups) && NoneWorse(groups, s)
    ensures Distinct(ReasonsAt(MergeEach(groups), s)) == Distinct(ReasonsAt(Flatten(groups), s))
    decreases |groups|
  {
    if groups != [] {
      var n := |groups| - 1;
      var each, flat := MergeEach(groups[..n]), Flatten(groups[..n]);
      GroupedReasons(groups[..n], s);
      MergeLast(groups);
      ReasonsOfLast(each, Merge(groups[n]), s);
      ReasonsOfConcat(flat, groups[n], s);
      LastGroupReasons(groups[n], s);
      JoinOneMore(ReasonsAt(each, s), ReasonsAt(flat, s), ReasonsAt(groups[n], s));
    }
  }

  lemma GroupsAreNotWorse(groups: seq<seq<Status>>)
    requires NonEmpty(groups) && groups != []
    ensures NoneWorse(groups, WorstOf(MergeEach(groups)))
  {
    var states := States(MergeEach(groups));
    WorstIsWorst(states);
    forall i | 0 <= i < |groups| ensures AtLeastAsBad(PickWorst(states), WorstOf(groups[i])) {
      assert states[i] in states;
    }
  }

  /** Merging the merges of non-empty groups is merging the flat list, reasons and their order included. */
  lemma {:induction false} GroupingIsIrrelevant(groups: seq<seq<Status>>)
    requires NonEmpty(groups)
    ensures Merge(MergeEach(groups)) == Merge(Flatten(groups))
  {
    GroupedState(groups);
    if groups != [] {
      GroupsAreNotWorse(groups);
      GroupedReasons(groups, WorstOf(MergeEach(groups)));
    }
  }

  /** Every empty group replaced by one status "unknown". */
  function Filled(groups: seq<seq<Status>>): seq<seq<Status>> {
    seq(|groups|, i requires 0 <= i < |groups| => if groups[i] == [] then [INSUFFICIENT] else groups[i])
  }

  /** Any split at all: an empty group is not neutral, it counts as one status "unknown". */
  lemma {:induction false} EmptyGroupsAreUnknown(groups: seq<seq<Status>>)
    ensures Merge(MergeEach(groups)) == Merge(Flatten(Filled(groups)))
  {
    MergeInsufficient();
    assert MergeEach(groups) == MergeEach(Filled(groups));
    GroupingIsIrrelevant(Filled(groups));
  }

  lemma MergeInsufficient()
    ensures Merge([INSUFFICIENT]) == INSUFFICIENT
  {
    WorstOfOne(INSUFFICIENT);
    var reasons := INSUFFICIENT.reasons;
    assert ReasonsAt([INSUFFICIENT], Unknown) == [] + reasons;
    assert Distinct(reasons[..0]) == [];
  }

  // ----- the dashboard -----

  /** The enumeration's string value. */
  function Name(s: State): string {
    match s
    case Critical => "critical"
    case Degraded => "degraded"
    case Warning => "warning"
    case Unknown => "unknown"
    case Healthy => "healthy"
  }

  /** `_SEVERITY.get(name, 1)`: larger is worse, and any other name is as bad as "unknown". */
  function Severity(name: string): nat {
    if name == "critical" then 4
    else if name == "degraded" then 3
    else if name == "warning" then 2
    else if name == "healthy" then 0
    else 1
  }

  /** The first name of the greatest severity. */
  function MostSevere(names: seq<string>): string {
    if names == [] then "unknown"
    else if |names| == 1 then names[0]
    else
      var before, last := MostSevere(names[..|names| - 1]), names[|names| - 1];
      if Severity(last) > Severity(before) then last else before
  }

  /** `_rollup`. */
  method Rollup(states: seq<string>) returns (worst: string)
    ensures worst == MostSevere(states)
  {
    worst := "unknown";
    var worstValue: int := -1;
    for i := 0 to |states|
      invariant worst == MostSevere(states[..i])
      invariant worstValue == if i == 0 then -1 else Severity(worst)
    {
      assert states[..i + 1][..i] == states[..i];
      var value := Severity(states[i]);
      if value > worstValue {
        worstValue := value;
        worst := states[i];
      }
    }
    assert states[..|states|] == states;
  }

  function Names(states: seq<State>): seq<string> {
    seq(|states|, i requires 0 <= i < |states| => Name(states[i]))
  }

  /** The dashboard's severity is the engine's rank, counted from the other end. */
  lemma SeverityIsRank(s: State)
    ensures Severity(Name(s)) == 4 - Rank(s)
  {
    assert "critical"[0] == 'c' && "degraded"[0] == 'd' && "warning"[0] == 'w';
    assert "unknown"[0] == 'u' && "healthy"[0] == 'h';
  }

  lemma SeverityOrders(a: State, b: State)
    ensures Name(Worse(a, b)) == if Severity(Name(b)) > Severity(Name(a)) then Name(b) else Name(a)
  {
    SeverityIsRank(a);
    SeverityIsRank(b);
  }

  lemma MostSevereAppend(names: seq<string>, last: string)
    requires names != []
    ensures MostSevere(names + [last]) ==
              if Severity(last) > Severity(MostSevere(names)) then last else MostSevere(names)
  {
    assert (names + [last])[..|names|] == names;
  }

  lemma NamesAppend(states: seq<State>, last: State)
    ensures Names(states + [last]) == Names(states) + [Name(last)]
  {
  }

  lemma PickWorstAppend(states: seq<State>, last: State)
    requires states != []
    ensures PickWorst(states + [last]) == Worse(PickWorst(states), last)
  {
    assert (states + [last])[..|states|] == states;
  }

  lemma AgreeOnOneMore(before: seq<State>, last: State)
    requires before != [] && MostSevere(Names(before)) == Name(PickWorst(before))
    ensures MostSevere(Names(before + [last])) == Name(PickWorst(before + [last]))
  {
    NamesAppend(before, last);
    MostSevereAppend(Names(before), Name(last));
    PickWorstAppend(before, last);
    SeverityOrders(PickWorst(before), last);
  }

  /** Both rollups pick the same state for every list of health states, the empty one included. */
  lemma {:induction false} RollupsAgree(states: seq<State>)
    ensures MostSevere(Names(states)) == Name(PickWorst(states))
  {
    if |states| > 1 {
      var before, last := states[..|states| - 1], states[|states| - 1];
      RollupsAgree(before);
      AgreeOnOneMore(before, last);
      assert states == before + [last];
    }
  }
}
