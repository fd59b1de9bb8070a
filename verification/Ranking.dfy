/**
 Listing a finite set in the order of an injective rank, and building such a listing one least
 element at a time.
 */
module Ranking {

  /** Compared lexicographically. */
  datatype Rank = Rank(group: int, first: int, second: int, third: int)

  predicate Less(a: Rank, b: Rank) {
    a.group < b.group || (a.group == b.group &&
    (a.first < b.first || (a.first == b.first &&
    (a.second < b.second || (a.second == b.second && a.third < b.third)))))
  }

  ghost predicate Injective<T(!new)>(rank: T -> Rank) {
    forall x, y :: rank(x) == rank(y) ==> x == y
  }

  predicate IsLeast<T(==)>(least: T, xs: set<T>, rank: T -> Rank) {
    least in xs && forall x :: x in xs && x != least ==> Less(rank(least), rank(x))
  }

  predicate Ascending<T(!new)>(xs: seq<T>, rank: T -> Rank) {
    forall i, j :: 0 <= i < j < |xs| ==> Less(rank(xs[i]), rank(xs[j]))
  }

  lemma {:induction false} LeastExists<T(!new)>(xs: set<T>, rank: T -> Rank)
    requires xs != {} && Injective(rank)
    ensures exists least :: IsLeast(least, xs, rank)
  {
    var some :| some in xs;
    if xs == {some} {
      assert IsLeast(some, xs, rank);
    } else {
      LeastExists(xs - {some}, rank);
      var best :| IsLeast(best, xs - {some}, rank);
      assert IsLeast(if Less(rank(some), rank(best)) then some else best, xs, rank);
    }
  }

  function Least<T(!new,==)>(xs: set<T>, rank: T -> Rank): (least: T)
    requires xs != {} && Injective(rank)
    ensures IsLeast(least, xs, rank)
  {
    LeastExists(xs, rank);
    var least :| least in xs && IsLeast(least, xs, rank);
    least
  }

  /** The set listed in rank order. */
  function Ranked<T(!new,==)>(xs: set<T>, rank: T -> Rank): (r: seq<T>)
    requires Injective(rank)
    ensures |r| == |xs| && forall x :: x in r <==> x in xs
  {
    if xs == {} then [] else [Least(xs, rank)] + Ranked(xs - {Least(xs, rank)}, rank)
  }

  lemma {:induction false} RankedIsAscending<T(!new)>(xs: set<T>, rank: T -> Rank)
    requires Injective(rank)
    ensures Ascending(Ranked(xs, rank), rank)
  {
    if xs != {} {
      var rest := Ranked(xs - {Least(xs, rank)}, rank);
      RankedIsAscending(xs - {Least(xs, rank)}, rank);
      assert forall i :: 0 <= i < |rest| ==> rest[i] in xs - {Least(xs, rank)};
    }
  }

  /** `r` is the part already listed, `left` the part still to come. */
  ghost predicate Listing<T(!new)>(r: seq<T>, left: set<T>, all: set<T>, rank: T -> Rank) {
    && Ascending(r, rank)
    && (forall x :: x in all <==> x in r || x in left)
    && (forall i, x :: 0 <= i < |r| && x in left ==> Less(rank(r[i]), rank(x)))
  }

  lemma ListNext<T(!new)>(r: seq<T>, left: set<T>, all: set<T>, rank: T -> Rank, x: T)
    requires Listing(r, left, all, rank) && IsLeast(x, left, rank)
    ensures Listing(r + [x], left - {x}, all, rank)
  {
  }

  lemma AscendingIsDistinct<T(!new)>(r: seq<T>, rank: T -> Rank, x: T)
    requires Ascending([x] + r, rank)
    ensures x !in r
  {
    var all := [x] + r;
    forall i | 0 <= i < |r| ensures r[i] != x {
      assert all[0] == x && all[i + 1] == r[i];
    }
  }

  /** The listing is the only ascending one of its set. */
  lemma {:induction false} AscendingIsRanked<T(!new)>(r: seq<T>, xs: set<T>, rank: T -> Rank)
    requires Injective(rank) && Ascending(r, rank) && forall x :: x in r <==> x in xs
    ensures r == Ranked(xs, rank)
  {
    if r == [] {
      assert xs == {};
    } else {
      assert r[0] in xs && r == [r[0]] + r[1..];
      var rest := r[1..];
      assert Ascending(rest, rank);
      AscendingIsDistinct(rest, rank, r[0]);
      assert IsLeast(r[0], xs, rank) by {
        forall x | x in xs && x != r[0] ensures Less(rank(r[0]), rank(x)) {
          var i :| 0 <= i < |r| && r[i] == x;
        }
      }
      assert Least(xs, rank) == r[0];
      AscendingIsRanked(rest, xs - {r[0]}, rank);
    }
  }

  function Take<T>(s: seq<T>, cap: nat): seq<T> {
    if |s| <= cap then s else s[..cap]
  }

  lemma JoinListings<T(!new)>(r: seq<T>, rest: seq<T>, left: set<T>, all: set<T>, rank: T -> Rank)
    requires Listing(r, left, all, rank) && Ascending(rest, rank)
    requires forall x :: x in rest <==> x in left
    ensures Ascending(r + rest, rank) && forall x :: x in r + rest <==> x in all
  {
    forall i, j | 0 <= i < j < |r + rest| ensures Less(rank((r + rest)[i]), rank((r + rest)[j])) {
      if i < |r| <= j {
        assert rest[j - |r|] in left;
      }
    }
  }

  /** A partial listing is the start of the listing. */
  lemma ListingIsPrefix<T(!new)>(r: seq<T>, left: set<T>, all: set<T>, rank: T -> Rank, cap: nat)
    requires Injective(rank) && Listing(r, left, all, rank)
    requires |r| == cap || (|r| <= cap && left == {})
    ensures r == Take(Ranked(all, rank), cap)
  {
    var rest := Ranked(left, rank);
    RankedIsAscending(left, rank);
    JoinListings(r, rest, left, all, rank);
    AscendingIsRanked(r + rest, all, rank);
    assert (r + rest)[..|r|] == r;
    assert left == {} ==> r + rest == r;
  }

  lemma CutIsBest<T(!new)>(ranked: seq<T>, rank: T -> Rank, cap: nat, x: T, y: T)
    requires Ascending(ranked, rank) && cap <= |ranked|
    requires x in ranked[..cap] && y in ranked && y !in ranked[..cap]
    ensures Less(rank(x), rank(y))
  {
    var i :| 0 <= i < cap && ranked[i] == x;
    var m :| 0 <= m < |ranked| && ranked[m] == y;
    assert forall k :: 0 <= k < cap ==> ranked[..cap][k] == ranked[k] && ranked[..cap][k] in ranked[..cap];
  }

  lemma CutListing<T(!new)>(ranked: seq<T>, rank: T -> Rank, cap: nat)
    requires Ascending(ranked, rank)
    ensures var best := Take(ranked, cap);
            && Ascending(best, rank) && (forall x :: x in best ==> x in ranked)
            && (forall x, y :: x in best && y in ranked && y !in best ==> |best| == cap && Less(rank(x), rank(y)))
  {
    if |ranked| > cap {
      forall x, y | x in ranked[..cap] && y in ranked && y !in ranked[..cap] ensures Less(rank(x), rank(y)) {
        CutIsBest(ranked, rank, cap, x, y);
      }
    }
  }

  /** The cut listing is ascending, and what it leaves out ranks after all it keeps. */
  lemma TakeIsBest<T(!new)>(all: set<T>, rank: T -> Rank, cap: nat)
    requires Injective(rank)
    ensures var best := Take(Ranked(all, rank), cap);
            && Ascending(best, rank)
            && |best| == (if |all| <= cap then |all| else cap)
            && (forall x :: x in best ==> x in all)
            && (forall x, y :: x in best && y in all && y !in best ==> |best| == cap && Less(rank(x), rank(y)))
  {
    RankedIsAscending(all, rank);
    CutListing(Ranked(all, rank), rank, cap);
  }

  // ----- integers -----

  function IntRank(x: int): Rank {
    Rank(x, 0, 0, 0)
  }

  /** `sorted(xs)` for a set of integers. */
  function SortedInts(xs: set<int>): (r: seq<int>)
    ensures |r| == |xs| && forall x :: x in r <==> x in xs
    ensures forall i, j :: 0 <= i < j < |r| ==> r[i] < r[j]
  {
    RankedIsAscending(xs, IntRank);
    var r := Ranked(xs, IntRank);
    assert forall i, j :: 0 <= i < j < |r| ==> Less(IntRank(r[i]), IntRank(r[j]));
    r
  }
}
