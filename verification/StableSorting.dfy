/** What `list.sort(key=...)` returns when the keys are small ranks: the items
    rank by rank, each rank in input order.  `StableSortIsUnique` shows that no
    other list is sorted by rank and keeps every rank's items in order. */
module StableSorting {

  /** The items of one rank among the first `n`. */
  function RankPrefix<T>(xs: seq<T>, rank: T -> nat, r: nat, n: nat): seq<T>
    requires n <= |xs|
  {
    if n == 0 then []
    else if rank(xs[n - 1]) == r then RankPrefix(xs, rank, r, n - 1) + [xs[n - 1]]
    else RankPrefix(xs, rank, r, n - 1)
  }

  /** The first `n` items, sorted. */
  function SortPrefix<T>(xs: seq<T>, rank: T -> nat, ranks: nat, n: nat): seq<T>
    requires n <= |xs|
    decreases ranks
  {
    if ranks == 0 then [] else SortPrefix(xs, rank, ranks - 1, n) + RankPrefix(xs, rank, ranks - 1, n)
  }

  function OfRank<T>(xs: seq<T>, rank: T -> nat, r: nat): seq<T> { RankPrefix(xs, rank, r, |xs|) }

  function StableSort<T>(xs: seq<T>, rank: T -> nat, ranks: nat): seq<T> { SortPrefix(xs, rank, ranks, |xs|) }

  ghost predicate RanksBelow<T>(xs: seq<T>, rank: T -> nat, ranks: nat) {
    forall i :: 0 <= i < |xs| ==> rank(xs[i]) < ranks
  }

  ghost predicate SortedByRank<T>(xs: seq<T>, rank: T -> nat) {
    forall i, j :: 0 <= i < j < |xs| ==> rank(xs[i]) <= rank(xs[j])
  }

  function Image<S, T>(xs: seq<S>, f: S -> T): (ys: seq<T>)
    ensures |ys| == |xs| && forall i :: 0 <= i < |xs| ==> ys[i] == f(xs[i])
  {
    seq(|xs|, i requires 0 <= i < |xs| => f(xs[i]))
  }

  lemma SumsRegroup<T>(a: seq<T>, b: seq<T>, c: seq<T>)
    ensures a + (b + c) == (a + b) + c
  {}

  // ----- sorted and stable -----

  ghost predicate AllOfRank<T>(xs: seq<T>, rank: T -> nat, r: nat) {
    forall i :: 0 <= i < |xs| ==> rank(xs[i]) == r
  }

  lemma {:induction false} RankPrefixHasRank<T>(xs: seq<T>, rank: T -> nat, r: nat, n: nat)
    requires n <= |xs|
    ensures AllOfRank(RankPrefix(xs, rank, r, n), rank, r)
  {
    if n > 0 { RankPrefixHasRank(xs, rank, r, n - 1); }
  }

  lemma NextRankKeepsSorted<T>(a: seq<T>, b: seq<T>, rank: T -> nat, r: nat)
    requires SortedByRank(a, rank) && RanksBelow(a, rank, r) && AllOfRank(b, rank, r)
    ensures SortedByRank(a + b, rank) && RanksBelow(a + b, rank, r + 1)
  {}

  lemma {:induction false} SortPrefixIsSorted<T>(xs: seq<T>, rank: T -> nat, ranks: nat, n: nat)
    requires n <= |xs|
    ensures SortedByRank(SortPrefix(xs, rank, ranks, n), rank)
    ensures RanksBelow(SortPrefix(xs, rank, ranks, n), rank, ranks)
    decreases ranks
  {
    if ranks > 0 {
      SortPrefixIsSorted(xs, rank, ranks - 1, n);
      RankPrefixHasRank(xs, rank, ranks - 1, n);
      NextRankKeepsSorted(SortPrefix(xs, rank, ranks - 1, n), RankPrefix(xs, rank, ranks - 1, n), rank, ranks - 1);
    }
  }

  lemma StableSortIsSorted<T>(xs: seq<T>, rank: T -> nat, ranks: nat)
    ensures SortedByRank(StableSort(xs, rank, ranks), rank)
    ensures RanksBelow(StableSort(xs, rank, ranks), rank, ranks)
  {
    SortPrefixIsSorted(xs, rank, ranks, |xs|);
  }

  lemma {:induction false} RankPrefixOfFront<T>(a: seq<T>, b: seq<T>, rank: T -> nat, r: nat, n: nat)
    requires n <= |a|
    ensures RankPrefix(a + b, rank, r, n) == RankPrefix(a, rank, r, n)
  {
    if n > 0 { RankPrefixOfFront(a, b, rank, r, n - 1); }
  }

  lemma {:induction false} RankPrefixOfSum<T>(a: seq<T>, b: seq<T>, rank: T -> nat, r: nat, n: nat)
    requires n <= |b|
    ensures RankPrefix(a + b, rank, r, |a| + n) == OfRank(a, rank, r) + RankPrefix(b, rank, r, n)
  {
    if n == 0 {
      RankPrefixOfFront(a, b, rank, r, |a|);
    } else {
      RankPrefixOfSum(a, b, rank, r, n - 1);
      SumsRegroup(OfRank(a, rank, r), RankPrefix(b, rank, r, n - 1), [b[n - 1]]);
    }
  }

  lemma {:induction false} RankPrefixOfRanked<T>(xs: seq<T>, rank: T -> nat, r: nat, q: nat, n: nat)
    requires n <= |xs| && AllOfRank(xs, rank, r)
    ensures RankPrefix(xs, rank, q, n) == if q == r then xs[..n] else []
  {
    if n > 0 { RankPrefixOfRanked(xs, rank, r, q, n - 1); }
  }

  lemma {:induction false} NoneOfRank<T>(xs: seq<T>, rank: T -> nat, r: nat, n: nat)
    requires n <= |xs| && RanksBelow(xs, rank, r)
    ensures RankPrefix(xs, rank, r, n) == []
  {
    if n > 0 { NoneOfRank(xs, rank, r, n - 1); }
  }

  lemma OfRankWithNextRank<T>(a: seq<T>, b: seq<T>, rank: T -> nat, q: nat, r: nat)
    requires AllOfRank(b, rank, q)
    ensures OfRank(a + b, rank, r) == if r == q then OfRank(a, rank, r) + b else OfRank(a, rank, r)
  {
    RankPrefixOfSum(a, b, rank, r, |b|);
    RankPrefixOfRanked(b, rank, q, r, |b|);
    assert b[..|b|] == b;
  }

  /** Each rank's items stay in input order. */
  lemma {:induction false} StableSortIsStable<T>(xs: seq<T>, rank: T -> nat, ranks: nat, r: nat)
    requires r < ranks
    ensures OfRank(StableSort(xs, rank, ranks), rank, r) == OfRank(xs, rank, r)
  {
    RankPrefixHasRank(xs, rank, ranks - 1, |xs|);
    OfRankWithNextRank(StableSort(xs, rank, ranks - 1), OfRank(xs, rank, ranks - 1), rank, ranks - 1, r);
    if r == ranks - 1 {
      StableSortIsSorted(xs, rank, ranks - 1);
      NoneOfRank(StableSort(xs, rank, ranks - 1), rank, r, |StableSort(xs, rank, ranks - 1)|);
    } else {
      StableSortIsStable(xs, rank, ranks - 1, r);
    }
  }

  // ----- the only such list -----

  lemma {:induction false} SortedPrefixIsItself<T>(xs: seq<T>, rank: T -> nat, ranks: nat, n: nat)
    requires n <= |xs| && SortedByRank(xs, rank) && RanksBelow(xs, rank, ranks)
    ensures SortPrefix(xs, rank, ranks, n) == xs[..n]
    decreases n
  {
    if n == 0 {
      SortingNothing(xs, rank, ranks);
    } else {
      SortedPrefixIsItself(xs, rank, ranks, n - 1);
      LargestGoesLast(xs, rank, ranks, n);
      assert xs[..n] == xs[..n - 1] + [xs[n - 1]];
    }
  }

  lemma {:induction false} SortingNothing<T>(xs: seq<T>, rank: T -> nat, ranks: nat)
    ensures SortPrefix(xs, rank, ranks, 0) == []
  {
    if ranks > 0 { SortingNothing(xs, rank, ranks - 1); }
  }

  lemma {:induction false} HigherRankIsEmpty<T>(xs: seq<T>, rank: T -> nat, r: nat, n: nat)
    requires n <= |xs| && SortedByRank(xs, rank) && n > 0 && rank(xs[n - 1]) < r
    ensures RankPrefix(xs, rank, r, n) == []
  {
    if n > 1 {
      HigherRankIsEmpty(xs, rank, r, n - 1);
    }
  }

  lemma {:induction false} LargestGoesLast<T>(xs: seq<T>, rank: T -> nat, ranks: nat, n: nat)
    requires 0 < n <= |xs| && SortedByRank(xs, rank)
    ensures SortPrefix(xs, rank, ranks, n)
            == if rank(xs[n - 1]) < ranks then SortPrefix(xs, rank, ranks, n - 1) + [xs[n - 1]] else SortPrefix(xs, rank, ranks, n - 1)
    decreases ranks
  {
    if ranks > 0 {
      LargestGoesLast(xs, rank, ranks - 1, n);
      if rank(xs[n - 1]) < ranks - 1 {
        HigherRankIsEmpty(xs, rank, ranks - 1, n);
      } else {
        SumsRegroup(SortPrefix(xs, rank, ranks - 1, n - 1), RankPrefix(xs, rank, ranks - 1, n - 1), [xs[n - 1]]);
      }
    }
  }

  lemma {:induction false} SameRanksSameSort<T>(xs: seq<T>, ys: seq<T>, rank: T -> nat, ranks: nat)
    requires forall r: nat :: OfRank(xs, rank, r) == OfRank(ys, rank, r)
    ensures StableSort(xs, rank, ranks) == StableSort(ys, rank, ranks)
  {
    if ranks > 0 {
      SameRanksSameSort(xs, ys, rank, ranks - 1);
      assert OfRank(xs, rank, ranks - 1) == OfRank(ys, rank, ranks - 1);
    }
  }

  /** Any list that is sorted by rank and keeps every rank's items in their
      order is the one `StableSort` builds. */
  lemma StableSortIsUnique<T>(xs: seq<T>, ys: seq<T>, rank: T -> nat, ranks: nat)
    requires SortedByRank(ys, rank) && RanksBelow(ys, rank, ranks)
    requires forall r: nat :: OfRank(ys, rank, r) == OfRank(xs, rank, r)
    ensures ys == StableSort(xs, rank, ranks)
  {
    SortedPrefixIsItself(ys, rank, ranks, |ys|);
    SameRanksSameSort(ys, xs, rank, ranks);
    assert ys[..|ys|] == ys;
  }

  // ----- nothing is lost -----

  lemma ItemsAddUp<T>(a: seq<T>, b: seq<T>, c: seq<T>, d: seq<T>, x: multiset<T>, y: multiset<T>)
    requires multiset(c) == multiset(a) + x && multiset(d) == multiset(b) + y
    ensures multiset(c + d) == multiset(a + b) + (x + y)
  {}

  function Once<T>(x: T, present: bool): multiset<T> { if present then multiset{x} else multiset{} }

  lemma {:induction false} OneMoreItem<T>(xs: seq<T>, rank: T -> nat, ranks: nat, n: nat)
    requires 0 < n <= |xs|
    ensures multiset(SortPrefix(xs, rank, ranks, n))
            == multiset(SortPrefix(xs, rank, ranks, n - 1)) + Once(xs[n - 1], rank(xs[n - 1]) < ranks)
    decreases ranks
  {
    if ranks > 0 {
      var x := xs[n - 1];
      OneMoreItem(xs, rank, ranks - 1, n);
      ItemsAddUp(SortPrefix(xs, rank, ranks - 1, n - 1), RankPrefix(xs, rank, ranks - 1, n - 1),
                 SortPrefix(xs, rank, ranks - 1, n), RankPrefix(xs, rank, ranks - 1, n),
                 Once(x, rank(x) < ranks - 1), Once(x, rank(x) == ranks - 1));
    }
  }

  lemma {:induction false} SortPrefixPermutes<T>(xs: seq<T>, rank: T -> nat, ranks: nat, n: nat)
    requires n <= |xs| && RanksBelow(xs, rank, ranks)
    ensures multiset(SortPrefix(xs, rank, ranks, n)) == multiset(xs[..n])
    decreases n
  {
    if n == 0 {
      SortingNothing(xs, rank, ranks);
    } else {
      SortPrefixPermutes(xs, rank, ranks, n - 1);
      OneMoreItem(xs, rank, ranks, n);
      assert xs[..n] == xs[..n - 1] + [xs[n - 1]];
    }
  }

  lemma StableSortPermutes<T>(xs: seq<T>, rank: T -> nat, ranks: nat)
    requires RanksBelow(xs, rank, ranks)
    ensures multiset(StableSort(xs, rank, ranks)) == multiset(xs)
  {
    SortPrefixPermutes(xs, rank, ranks, |xs|);
    assert xs[..|xs|] == xs;
  }

  lemma SortedItemIsAnInput<T>(xs: seq<T>, rank: T -> nat, ranks: nat, x: T) returns (i: nat)
    requires RanksBelow(xs, rank, ranks) && x in StableSort(xs, rank, ranks)
    ensures i < |xs| && xs[i] == x
  {
    StableSortPermutes(xs, rank, ranks);
    assert x in multiset(StableSort(xs, rank, ranks));
    assert x in multiset(xs);
    i :| 0 <= i < |xs| && xs[i] == x;
  }

  // ----- what can be seen of a sorted list -----

  /** The rank of an item can be read off its image. */
  ghost predicate RankShows<S, T>(xs: seq<S>, f: S -> T, rankS: S -> nat, rankT: T -> nat) {
    forall i :: 0 <= i < |xs| ==> rankS(xs[i]) == rankT(f(xs[i]))
  }

  lemma ImageOfSum<S, T>(a: seq<S>, b: seq<S>, f: S -> T)
    ensures Image(a + b, f) == Image(a, f) + Image(b, f)
  {}

  lemma {:induction false} ImageOfRank<S, T>(xs: seq<S>, f: S -> T, rankS: S -> nat, rankT: T -> nat, r: nat, n: nat)
    requires n <= |xs| && RankShows(xs, f, rankS, rankT)
    ensures Image(RankPrefix(xs, rankS, r, n), f) == RankPrefix(Image(xs, f), rankT, r, n)
  {
    if n > 0 {
      ImageOfRank(xs, f, rankS, rankT, r, n - 1);
      ImageOfSum(RankPrefix(xs, rankS, r, n - 1), [xs[n - 1]], f);
      assert Image([xs[n - 1]], f) == [f(xs[n - 1])];
    }
  }

  /** Sorting then looking is the same as looking then sorting, when the rank
      can be seen. */
  lemma {:induction false} ImageOfSort<S, T>(xs: seq<S>, f: S -> T, rankS: S -> nat, rankT: T -> nat, ranks: nat)
    requires RankShows(xs, f, rankS, rankT)
    ensures Image(StableSort(xs, rankS, ranks), f) == StableSort(Image(xs, f), rankT, ranks)
  {
    if ranks > 0 {
      ImageOfSum(StableSort(xs, rankS, ranks - 1), OfRank(xs, rankS, ranks - 1), f);
      ImageOfRank(xs, f, rankS, rankT, ranks - 1, |xs|);
      ImageOfSort(xs, f, rankS, rankT, ranks - 1);
    }
  }
}
