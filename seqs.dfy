/** Order and duplicate facts about sequences, used to pin down the
    canonical order of the reported missing fields. */
module Seqs {

  /** No element occurs twice. */
  predicate Distinct<T(==)>(s: seq<T>) {
    forall i, j :: 0 <= i < j < |s| ==> s[i] != s[j]
  }

  /** `a` is obtained from `b` by deleting elements, keeping the order of the rest. */
  predicate IsSubsequence<T(==)>(a: seq<T>, b: seq<T>)
    decreases |b|
  {
    if a == [] then true
    else if b == [] then false
    else (a[0] == b[0] && IsSubsequence(a[1..], b[1..])) || IsSubsequence(a, b[1..])
  }

  /** Every element of a subsequence occurs in the sequence it is taken from. */
  lemma {:induction false} SubsequenceElements<T>(a: seq<T>, b: seq<T>, x: T)
    requires IsSubsequence(a, b)
    requires x in a
    ensures x in b
    decreases |b|
  {
    if a[0] == b[0] && IsSubsequence(a[1..], b[1..]) {
      if x != a[0] {
        SubsequenceElements(a[1..], b[1..], x);
      }
    } else {
      SubsequenceElements(a, b[1..], x);
    }
  }

  /** A subsequence of a sequence without duplicates has no duplicates. */
  lemma {:induction false} SubsequenceDistinct<T>(a: seq<T>, b: seq<T>)
    requires IsSubsequence(a, b)
    requires Distinct(b)
    ensures Distinct(a)
    decreases |b|
  {
    if a == [] {
    } else if a[0] == b[0] && IsSubsequence(a[1..], b[1..]) {
      SubsequenceDistinct(a[1..], b[1..]);
      forall j | 0 < j < |a|
        ensures a[0] != a[j]
      {
        SubsequenceElements(a[1..], b[1..], a[j]);
      }
    } else {
      SubsequenceDistinct(a, b[1..]);
    }
  }

  /** When the source sequence has no duplicates, a subsequence is determined
      by which elements it keeps: two subsequences with the same elements are equal. */
  lemma {:induction false} SubsequenceUnique<T>(a: seq<T>, a': seq<T>, b: seq<T>)
    requires IsSubsequence(a, b) && IsSubsequence(a', b)
    requires Distinct(b)
    requires forall x :: x in a <==> x in a'
    ensures a == a'
    decreases |b|
  {
    if b == [] {
    } else if b[0] in a {
      HeadKept(a, b);
      HeadKept(a', b);
      SubsequenceDistinct(a, b);
      SubsequenceDistinct(a', b);
      forall x
        ensures x in a[1..] <==> x in a'[1..]
      {
        DropHead(a, x);
        DropHead(a', x);
      }
      SubsequenceUnique(a[1..], a'[1..], b[1..]);
    } else {
      NotKept(a, b);
      NotKept(a', b);
      SubsequenceUnique(a, a', b[1..]);
    }
  }

  /** If the first element of a duplicate-free `b` is kept, it is the first element kept. */
  lemma HeadKept<T>(a: seq<T>, b: seq<T>)
    requires IsSubsequence(a, b) && Distinct(b)
    requires b != [] && b[0] in a
    ensures a[0] == b[0] && IsSubsequence(a[1..], b[1..])
  {
    if !(a[0] == b[0] && IsSubsequence(a[1..], b[1..])) {
      SubsequenceElements(a, b[1..], b[0]);
      assert false;
    }
  }

  /** If the first element of `b` is not kept, `a` is a subsequence of the rest of `b`. */
  lemma NotKept<T>(a: seq<T>, b: seq<T>)
    requires IsSubsequence(a, b)
    requires b != [] && b[0] !in a
    ensures IsSubsequence(a, b[1..])
  {
    if a != [] {
      assert a[0] in a;
    }
  }

  /** In a duplicate-free nonempty sequence, the tail holds exactly the other elements. */
  lemma DropHead<T>(a: seq<T>, x: T)
    requires a != [] && Distinct(a)
    ensures x in a[1..] <==> x in a && x != a[0]
  {
    if x in a[1..] {
      var j :| 0 <= j < |a[1..]| && a[1..][j] == x;
      assert a[j + 1] == x;
    }
  }
}
