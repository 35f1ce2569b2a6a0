/**
 * Facts about prefixes and tails of sequences, stated once for any element
 * type so that the proofs using them need not rediscover them.
 */
module Sequences {

  /** Dropping the first element keeps only elements of the sequence. */
  lemma TailMembers<X>(s: seq<X>)
    requires s != []
    ensures forall x :: x in s[1..] ==> x in s
    ensures forall x :: x in s ==> x == s[0] || x in s[1..]
  {
    assert s == [s[0]] + s[1..];
  }

  /** The prefix of length i + 1 is the prefix of length i and the i-th element. */
  lemma TakeSnoc<X>(s: seq<X>, i: nat)
    requires i < |s|
    ensures s[..i + 1] == s[..i] + [s[i]]
  {
  }

  /** A prefix of the sequence without its last element is a prefix of the sequence. */
  lemma TakeOfFront<X>(s: seq<X>, i: nat)
    requires i < |s|
    ensures s[..|s| - 1][..i] == s[..i]
    ensures i < |s| - 1 ==> s[..|s| - 1][i] == s[i]
  {
  }

  /** The members of a prefix of length j + 1: the first element and the members of the tail's prefix of length j. */
  lemma TakeOfTail<X>(s: seq<X>, j: nat)
    requires j < |s|
    ensures forall x :: x in s[..j + 1] <==> x == s[0] || x in s[1..][..j]
    ensures s[1..][..j] == s[1..j + 1]
  {
    assert s[..j + 1] == [s[0]] + s[1..][..j];
  }

  /** What follows a prefix `a + b` of `s` after `a` is `b` and then the rest. */
  lemma DropAfterPrefix<X>(s: seq<X>, a: seq<X>, b: seq<X>)
    requires a + b <= s
    ensures a <= s && s[|a|..] == b + s[|a + b|..]
  {
    assert s == a + b + s[|a + b|..];
  }

  /** The prefix of length i + 1, without its last element, is the prefix of length i. */
  lemma FrontOfTake<X>(s: seq<X>, i: nat)
    requires i < |s|
    ensures |s[..i + 1]| == i + 1 && s[..i + 1][..i] == s[..i] && s[..i + 1][i] == s[i]
  {
  }

  /** The two parts of a concatenation, read back. */
  lemma AppendParts<X>(a: seq<X>, b: seq<X>)
    ensures a <= a + b && (a + b)[..|a|] == a && (a + b)[|a|..] == b
  {
  }

  /** An element is in a three-part concatenation exactly when it is in one of the parts. */
  lemma InAppend3<X>(x: X, a: seq<X>, b: seq<X>, c: seq<X>)
    ensures x in a + b + c <==> x in a || x in b || x in c
  {
  }
}
