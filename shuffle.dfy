/**
 * The random draws of the picker, with the randomness taken out: a shuffle
 * is given as the permutation it produced, a random index as the index.
 * What remains is the shuffle-and-take-20 chain that builds the spin preview
 * and the pick of one entry of a list.
 */
module Shuffle {

  /** How many emoji the spin animation cycles through. */
  const SpinLength: nat := 20

  function Min(a: nat, b: nat): nat
  {
    if a <= b then a else b
  }

  /**
   * `p` is some reordering of `s`. Sorting a copy with a random comparator
   * yields one of these; which one, and with what probability, is not modelled.
   */
  predicate IsPermutationOf<T(==)>(p: seq<T>, s: seq<T>)
  {
    multiset(p) == multiset(s)
  }

  /** `slice(0, n)`: the first `n` entries, or all of them when there are fewer. */
  function Take<T>(s: seq<T>, n: nat): (r: seq<T>)
    ensures |r| == Min(n, |s|)
    ensures r <= s
  {
    if n <= |s| then s[..n] else s
  }

  /** A prefix never holds an entry more often than the whole sequence does. */
  lemma PrefixSubMultiset<T>(s: seq<T>, k: nat)
    requires k <= |s|
    ensures multiset(s[..k]) <= multiset(s)
  {
    assert s == s[..k] + s[k..];
    assert multiset(s) == multiset(s[..k]) + multiset(s[k..]);
  }

  /** What a spin animation may cycle through when drawn from `catalog`. */
  ghost predicate IsPreviewOf<T>(r: seq<T>, catalog: seq<T>)
  {
    |r| == Min(SpinLength, |catalog|) && multiset(r) <= multiset(catalog)
  }

  /**
   * The spin preview built from the shuffled copy `shuffled` of `catalog`:
   * its first SpinLength entries. It is a prefix of the shuffle, it has
   * `min(20, |catalog|)` entries, and no entry occurs in it more often than in
   * the catalog, so every entry is a catalog entry.
   */
  function Preview<T(==)>(catalog: seq<T>, shuffled: seq<T>): (r: seq<T>)
    requires IsPermutationOf(shuffled, catalog)
    ensures r <= shuffled
    ensures |r| == Min(SpinLength, |catalog|)
    ensures multiset(r) <= multiset(catalog)
    ensures forall e :: e in r ==> e in catalog
  {
    assert |shuffled| == |multiset(shuffled)| == |catalog|;
    PrefixSubMultiset(shuffled, |Take(shuffled, SpinLength)|);
    var r := Take(shuffled, SpinLength);
    assert forall e :: e in r ==> e in multiset(r);
    r
  }

  /** `list[Math.floor(Math.random() * list.length)]`, with the index given. */
  function PickAt<T>(list: seq<T>, i: nat): (r: T)
    requires i < |list|
    ensures r in list
  {
    list[i]
  }

  /** Every list, the catalog included, has a shuffle, so a spin can always start. */
  lemma PermutationsExist<T>(s: seq<T>)
    ensures exists p :: IsPermutationOf(p, s) && |p| == |s|
  {
  }

  /** A permutation has the entries of the original and no others. */
  lemma PermutationSameEntries<T>(p: seq<T>, s: seq<T>)
    requires IsPermutationOf(p, s)
    ensures |p| == |s|
    ensures forall e :: e in p <==> e in s
  {
    assert |p| == |multiset(p)| == |s|;
    assert forall e :: e in p <==> e in multiset(p);
  }
}
