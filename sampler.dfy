/** `pickUniqueGames`: copy the list, shuffle the copy with a random comparator, take a prefix.
    The random order the sort produces is supplied by the caller as a sequence of exchanges
    of two positions; every reordering of the copy is such a sequence. */
module Sampler {
  import opened Games

  /** One exchange of the elements at positions `i` and `j`. */
  datatype Swap = Swap(i: nat, j: nat)

  /** Every exchange names positions of a list of length `n`. */
  predicate SwapsWithin(swaps: seq<Swap>, n: nat)
  {
    forall k :: 0 <= k < |swaps| ==> swaps[k].i < n && swaps[k].j < n
  }

  function Exchange<T>(s: seq<T>, w: Swap): (r: seq<T>)
    requires w.i < |s| && w.j < |s|
    ensures |r| == |s|
  {
    s[w.i := s[w.j]][w.j := s[w.i]]
  }

  /** The copy after the sort has applied `swaps` in order: a reordering of `s`. */
  function Shuffled<T>(s: seq<T>, swaps: seq<Swap>): (r: seq<T>)
    requires SwapsWithin(swaps, |s|)
    ensures |r| == |s|
    decreases |swaps|
  {
    if swaps == [] then s else Shuffled(Exchange(s, swaps[0]), swaps[1..])
  }

  /** Exchanges only reorder: the shuffled copy holds every entry as often as `s` does. */
  lemma {:induction false} ShuffledPermutes<T>(s: seq<T>, swaps: seq<Swap>)
    requires SwapsWithin(swaps, |s|)
    ensures multiset(Shuffled(s, swaps)) == multiset(s)
    decreases |swaps|
  {
    if swaps != [] {
      var w := swaps[0];
      assert multiset(Exchange(s, w)) == multiset(s);
      ShuffledPermutes(Exchange(s, w), swaps[1..]);
    }
  }

  /** `[...list].sort(random).slice(0, count)`: `count` entries of the list, or all of them
      when it is shorter, each taken at most as often as the list holds it. `list` is a
      value, so the caller's list is untouched by construction. */
  function PickUniqueGames<T>(list: seq<T>, count: nat, shuffle: seq<Swap>): (r: seq<T>)
    requires SwapsWithin(shuffle, |list|)
    ensures |r| == Min(count, |list|)
    ensures multiset(r) <= multiset(list)
    ensures count >= |list| ==> multiset(r) == multiset(list)
  {
    var shuffled := Shuffled(list, shuffle);
    var n := Min(count, |list|);
    ShuffledPermutes(list, shuffle);
    PrefixWithin(shuffled, n);
    shuffled[..n]
  }

  lemma PrefixWithin<T>(s: seq<T>, n: nat)
    requires n <= |s|
    ensures multiset(s[..n]) <= multiset(s)
    ensures n == |s| ==> s[..n] == s
  {
    assert s == s[..n] + s[n..];
  }

  /** Every game of a draw comes from the list. */
  lemma PickedFromList<T>(list: seq<T>, count: nat, shuffle: seq<Swap>)
    requires SwapsWithin(shuffle, |list|)
    ensures forall x :: x in PickUniqueGames(list, count, shuffle) ==> x in list
  {
    var r := PickUniqueGames(list, count, shuffle);
    forall x | x in r ensures x in list {
      assert multiset(r)[x] > 0;
    }
  }

  lemma ExchangeDistinct<T>(s: seq<T>, w: Swap)
    requires w.i < |s| && w.j < |s| && Distinct(s)
    ensures Distinct(Exchange(s, w))
  {
  }

  lemma {:induction false} ShuffledDistinct<T>(s: seq<T>, swaps: seq<Swap>)
    requires SwapsWithin(swaps, |s|) && Distinct(s)
    ensures Distinct(Shuffled(s, swaps))
    decreases |swaps|
  {
    if swaps != [] {
      ExchangeDistinct(s, swaps[0]);
      ShuffledDistinct(Exchange(s, swaps[0]), swaps[1..]);
    }
  }

  /** The promise in the name: a draw from a list without repeats has no repeats. */
  lemma PickedDistinct<T>(list: seq<T>, count: nat, shuffle: seq<Swap>)
    requires SwapsWithin(shuffle, |list|) && Distinct(list)
    ensures Distinct(PickUniqueGames(list, count, shuffle))
  {
    ShuffledDistinct(list, shuffle);
  }
}
