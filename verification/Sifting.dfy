/**
  What it means that a sequence is another one with some elements left out: exactly
  those wanted are there, each once, in their order.
  */
module Sifting {
  /** How many of the first `k` elements are wanted. */
  function Rank<T>(all: seq<T>, wanted: T -> bool, k: nat): nat
    requires k <= |all|
  {
    if k == 0 then 0 else Rank(all, wanted, k - 1) + if wanted(all[k - 1]) then 1 else 0
  }

  /** Every wanted element is in `some`, after exactly the wanted ones before it, and nothing else is. */
  ghost predicate Sifts<T>(all: seq<T>, some: seq<T>, wanted: T -> bool) {
    && |some| == Rank(all, wanted, |all|)
    && forall k :: 0 <= k < |all| && wanted(all[k]) ==>
         Rank(all, wanted, k) < |some| && some[Rank(all, wanted, k)] == all[k]
  }

  lemma NothingSifts<T>(wanted: T -> bool)
    ensures Sifts([], [], wanted)
  {
  }

  lemma {:induction false} RankLater<T>(x: T, all: seq<T>, wanted: T -> bool, k: nat)
    requires k <= |all|
    ensures Rank([x] + all, wanted, k + 1) == Rank(all, wanted, k) + if wanted(x) then 1 else 0
    decreases k
  {
    if k == 0 {
      assert Rank([x] + all, wanted, 0) == 0;
    } else {
      RankLater(x, all, wanted, k - 1);
      assert ([x] + all)[k] == all[k - 1];
    }
  }

  /** One more element in front, taken if it is wanted. */
  lemma OneInFront<T>(x: T, all: seq<T>, some: seq<T>, wanted: T -> bool)
    requires Sifts(all, some, wanted)
    ensures Sifts([x] + all, (if wanted(x) then [x] else []) + some, wanted)
  {
    var all', some' := [x] + all, (if wanted(x) then [x] else []) + some;
    RankLater(x, all, wanted, |all|);
    forall k | 0 <= k < |all'| && wanted(all'[k])
      ensures Rank(all', wanted, k) < |some'| && some'[Rank(all', wanted, k)] == all'[k]
    {
      if k > 0 {
        RankLater(x, all, wanted, k - 1);
        assert all'[k] == all[k - 1];
      }
    }
  }

  lemma {:induction false} RankRises<T>(all: seq<T>, wanted: T -> bool, k: nat, n: nat)
    requires k < n <= |all| && wanted(all[k])
    ensures Rank(all, wanted, k) < Rank(all, wanted, n)
    decreases n
  {
    if n > k + 1 {
      RankRises(all, wanted, k, n - 1);
    }
  }

  /** Every place below the rank is some wanted element's. */
  lemma {:induction false} RankHits<T>(all: seq<T>, wanted: T -> bool, n: nat, i: nat) returns (k: nat)
    requires n <= |all| && i < Rank(all, wanted, n)
    ensures k < n && wanted(all[k]) && Rank(all, wanted, k) == i
    decreases n
  {
    if i < Rank(all, wanted, n - 1) {
      k := RankHits(all, wanted, n - 1, i);
    } else {
      k := n - 1;
    }
  }

  /** What was sifted out of `all` is wanted. */
  lemma SiftedIsWanted<T>(all: seq<T>, some: seq<T>, wanted: T -> bool, i: nat) returns (k: nat)
    requires Sifts(all, some, wanted) && i < |some|
    ensures k < |all| && wanted(all[k]) && some[i] == all[k]
  {
    k := RankHits(all, wanted, |all|, i);
  }
}
