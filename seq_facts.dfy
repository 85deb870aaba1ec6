/**
 * General facts about sequences. The proofs about the model call them
 * instead of asserting the facts inline, which keeps those proofs small.
 */
module SeqFacts {
  /** Concatenation is associative. */
  lemma AppendAssoc<T>(a: seq<T>, b: seq<T>, c: seq<T>)
    ensures (a + b) + c == a + (b + c)
  {
  }

  /** A prefix one longer than `acc` that ends in `x` gives `acc` and `x` back. */
  lemma PrefixStep<T>(ds: seq<T>, acc: seq<T>, x: T)
    requires |acc| < |ds| && ds[..|acc| + 1] == acc + [x]
    ensures ds[..|acc|] == acc && ds[|acc|] == x
  {
    assert ds[..|acc|] == ds[..|acc| + 1][..|acc|];
    assert ds[|acc|] == ds[..|acc| + 1][|acc|];
  }

  /** Dropping `n` elements, then one more. */
  lemma DropOne<T>(ds: seq<T>, n: nat)
    requires n < |ds|
    ensures ds[n..][0] == ds[n] && ds[n..][1..] == ds[n + 1..]
  {
  }

  /** Indexing past the head of `[x] + rest`. */
  lemma ConsIndex<T>(x: T, rest: seq<T>, i: nat)
    requires 1 <= i <= |rest|
    ensures ([x] + rest)[i] == rest[i - 1]
  {
  }

  /** Indexing into the tail. */
  lemma TailIndex<T>(s: seq<T>, i: nat)
    requires 1 <= i < |s|
    ensures s[i] == s[1..][i - 1]
  {
  }

  /**
   * A run of `lo`s followed by an ascending list of values in (lo, hi) is
   * ascending, with every value in [lo, hi).
   */
  lemma BlockThenAscending(head: seq<nat>, tail: seq<nat>, lo: nat, hi: nat)
    requires lo < hi
    requires forall k :: 0 <= k < |head| ==> head[k] == lo
    requires forall k :: 0 <= k < |tail| ==> lo < tail[k] < hi
    requires forall a, b :: 0 <= a < b < |tail| ==> tail[a] <= tail[b]
    ensures forall k :: 0 <= k < |head + tail| ==> lo <= (head + tail)[k] < hi
    ensures forall a, b :: 0 <= a < b < |head + tail| ==> (head + tail)[a] <= (head + tail)[b]
  {
    var s := head + tail;
    forall a, b | 0 <= a < b < |s|
      ensures s[a] <= s[b]
    {
      if b < |head| {
        assert s[a] == head[a] && s[b] == head[b];
      } else if a < |head| {
        assert s[a] == head[a] && s[b] == tail[b - |head|];
      } else {
        assert s[a] == tail[a - |head|] && s[b] == tail[b - |head|];
      }
    }
  }

  /** The set of the positions in a sequence. */
  function Elems(s: seq<nat>): set<nat> {
    if s == [] then {} else {s[0]} + Elems(s[1..])
  }

  /** The elements of `[x] + rest`. */
  lemma ElemsCons(x: nat, rest: seq<nat>)
    ensures Elems([x] + rest) == {x} + Elems(rest)
  {
    assert ([x] + rest)[1..] == rest;
  }
}
