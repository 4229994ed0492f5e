/**
 * The Fisher–Yates loop that the board runs twice, once over the sprite pair
 * list and once over the grid positions. The random source is an oracle:
 * `draws[i]` is the value Random.Range(0, i + 1) returns when the loop is at
 * index i, so it lies in [0, i]; draws[0] is never read.
 */
module Shuffling {

  ghost predicate ValidDraws(draws: seq<int>, n: int)
  {
    |draws| == n && forall i :: 0 <= i < n ==> 0 <= draws[i] <= i
  }

  /** The list with the entries at i and j exchanged. */
  function Swap<T>(s: seq<T>, i: int, j: int): (r: seq<T>)
    requires 0 <= i < |s| && 0 <= j < |s|
    ensures |r| == |s| && r[i] == s[j] && r[j] == s[i]
    ensures multiset(r) == multiset(s)
  {
    s[i := s[j]][j := s[i]]
  }

  /** A swap leaves every entry other than i and j where it was. */
  lemma SwapKeepsOthers<T>(s: seq<T>, i: int, j: int)
    requires 0 <= i < |s| && 0 <= j < |s|
    ensures forall k :: 0 <= k < |s| && k != i && k != j ==> Swap(s, i, j)[k] == s[k]
  {
  }

  /** The state after the loop has processed indices i, i-1, ..., 1 in that order. */
  ghost function ShuffleDown<T>(s: seq<T>, draws: seq<int>, i: int): seq<T>
    requires |draws| == |s| && i < |s|
    requires forall k :: 0 <= k <= i ==> 0 <= draws[k] <= k
    decreases i
  {
    if i <= 0 then s else ShuffleDown(Swap(s, i, draws[i]), draws, i - 1)
  }

  /** The Fisher–Yates result for the whole list. */
  ghost function Shuffled<T>(s: seq<T>, draws: seq<int>): seq<T>
    requires ValidDraws(draws, |s|)
  {
    ShuffleDown(s, draws, |s| - 1)
  }

  /** Every prefix of the loop keeps the length and the multiset of the list. */
  lemma {:induction false} ShuffleDownPermutes<T>(s: seq<T>, draws: seq<int>, i: int)
    requires |draws| == |s| && i < |s|
    requires forall k :: 0 <= k <= i ==> 0 <= draws[k] <= k
    ensures |ShuffleDown(s, draws, i)| == |s|
    ensures multiset(ShuffleDown(s, draws, i)) == multiset(s)
    decreases i
  {
    if i > 0 {
      var t := Swap(s, i, draws[i]);
      ShuffleDownPermutes(t, draws, i - 1);
      assert ShuffleDown(s, draws, i) == ShuffleDown(t, draws, i - 1);
    }
  }

  /** A shuffled list is a permutation of the original one. */
  lemma ShuffledPermutes<T>(s: seq<T>, draws: seq<int>)
    requires ValidDraws(draws, |s|)
    ensures |Shuffled(s, draws)| == |s| && multiset(Shuffled(s, draws)) == multiset(s)
  {
    ShuffleDownPermutes(s, draws, |s| - 1);
  }

  /**
   * The loop `for (i = Count - 1; i > 0; i--)` that swaps entry i with a
   * random entry in [0, i], on a list held by value.
   */
  method Shuffle<T>(list: seq<T>, draws: seq<int>) returns (r: seq<T>)
    requires ValidDraws(draws, |list|)
    ensures r == Shuffled(list, draws)
    ensures |r| == |list| && multiset(r) == multiset(list)
  {
    r := list;
    var i := |list| - 1;
    while i > 0
      invariant -1 <= i < |list|
      invariant |r| == |list| && multiset(r) == multiset(list)
      invariant ShuffleDown(r, draws, i) == Shuffled(list, draws)
      decreases i
    {
      var randomIndex := draws[i];
      ghost var before := r;
      var temp := r[i];
      r := r[i := r[randomIndex]];
      r := r[randomIndex := temp];
      assert r == Swap(before, i, randomIndex);
      i := i - 1;
    }
  }
}
