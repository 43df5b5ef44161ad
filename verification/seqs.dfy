/** Small facts about sequences that the loops and the inductions over
    prefixes use, stated once so that each proof needs only to cite them. */
module Seqs {

  /** Growing a prefix by one element */
  lemma PrefixStep<T>(s: seq<T>, i: nat)
    requires i < |s|
    ensures s[..i + 1][..i] == s[..i] && s[..i + 1][i] == s[i]
  {
  }

  /** The prefix of full length is the sequence itself. */
  lemma WholePrefix<T>(s: seq<T>)
    ensures s[..|s|] == s
  {
  }

  /** A sequence is its part before `i`, its element at `i` and its part
      after `i`. */
  lemma SplitAt<T>(s: seq<T>, i: nat)
    requires i < |s|
    ensures s == s[..i] + [s[i]] + s[i + 1..]
  {
  }

  /** Indexing into the middle part of a concatenation */
  lemma IndexMiddle<T>(a: seq<T>, b: seq<T>, c: seq<T>, j: nat)
    requires j < |b|
    ensures |a| + j < |a + b + c| && (a + b + c)[|a| + j] == b[j]
  {
  }

  /** The last element and the rest of a concatenation with a non-empty
      second part */
  lemma ConcatLast<T>(a: seq<T>, b: seq<T>)
    requires b != []
    ensures (a + b)[..|a + b| - 1] == a + b[..|b| - 1]
    ensures (a + b)[|a + b| - 1] == b[|b| - 1]
  {
  }

  lemma ConcatAssoc<T>(a: seq<T>, b: seq<T>, c: seq<T>)
    ensures a + b + c == a + (b + c)
  {
  }

  lemma ConcatEmpty<T>(a: seq<T>)
    ensures a + [] == a && [] + a == a
  {
  }

  /** Dropping the first element of a sequence built on it */
  lemma DropHead<T>(x: T, t: seq<T>)
    ensures ([x] + t)[1..] == t
  {
  }

  /** Some element satisfies `p` exactly when some element of `front`,
      all but the last, does or the last one does. */
  lemma ExistsSplit<T>(s: seq<T>, front: seq<T>, p: T -> bool)
    requires s != [] && front == s[..|s| - 1]
    ensures (exists i :: 0 <= i < |s| && p(s[i])) <==>
              (exists i :: 0 <= i < |front| && p(front[i])) || p(s[|s| - 1])
  {
    if exists i :: 0 <= i < |s| && p(s[i]) {
      var i :| 0 <= i < |s| && p(s[i]);
      if i < |front| {
        assert front[i] == s[i];
      }
    }
  }
}
