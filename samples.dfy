/** Data sets of samples.

    A data set is a sequence of samples; each sample is a sequence of reals
    whose last entry is the dependent variable y and whose other entries are
    the independent variables x1 .. xN, in that order. */
module Samples {

  /** Every sample of `s` has exactly `m` entries. */
  ghost predicate Arity(s: seq<seq<real>>, m: nat) {
    forall k | 0 <= k < |s| :: |s[k]| == m
  }

  /** Entry `i` of sample `v`. Beyond the sample's arity the entry is 0;
      the solvers never read there. */
  function At(v: seq<real>, i: nat): real {
    if i < |v| then v[i] else 0.0
  }

  /** `t` without its element at position `k`. */
  function RemoveAt(t: seq<seq<real>>, k: nat): (r: seq<seq<real>>)
    requires k < |t|
    ensures |r| == |t| - 1
    ensures multiset(r) == multiset(t) - multiset{t[k]}
  {
    assert t == t[..k] + [t[k]] + t[k + 1..];
    t[..k] + t[k + 1..]
  }

  /** A position at which `x` occurs in `t`. */
  function Find(t: seq<seq<real>>, x: seq<real>): (k: nat)
    requires x in multiset(t)
    ensures k < |t| && t[k] == x
  {
    if t[0] == x then 0
    else
      assert t == [t[0]] + t[1..];
      1 + Find(t[1..], x)
  }

  /** The multiset of a non-empty sequence is that of all but its last
      element, plus that element. */
  lemma DropLast(s: seq<seq<real>>)
    requires s != []
    ensures multiset(s[..|s| - 1]) == multiset(s) - multiset{s[|s| - 1]}
  {
    assert s == s[..|s| - 1] + [s[|s| - 1]];
  }

  /** Sequences with the same elements have the same length. */
  lemma SameLength(s: seq<seq<real>>, t: seq<seq<real>>)
    requires multiset(s) == multiset(t)
    ensures |s| == |t|
  {
    assert |s| == |multiset(s)| == |multiset(t)| == |t|;
  }

  /** The prefix of full length is the whole sequence. */
  lemma Whole(s: seq<seq<real>>)
    ensures s[..|s|] == s
  {
  }

  /** Position k splits a sequence into the part before it, the element and
      the part after it; removing position k joins the two parts. */
  lemma SplitAt(t: seq<seq<real>>, k: nat)
    requires k < |t|
    ensures t[..k + 1] + t[k + 1..] == t && t[..k + 1][..k] == t[..k]
    ensures RemoveAt(t, k) == t[..k] + t[k + 1..]
  {
  }
}
