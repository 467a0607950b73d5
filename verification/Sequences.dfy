/** Sequences from their end, distinct and joined sequences, and the law of concatenation that proofs need by name. */
module Sequences {
  function Front<T>(s: seq<T>): seq<T>
    requires s != []
  {
    s[..|s| - 1]
  }

  function Final<T>(s: seq<T>): T
    requires s != []
  {
    s[|s| - 1]
  }

  lemma Snoc<T>(s: seq<T>, x: T)
    ensures Front(s + [x]) == s && Final(s + [x]) == x
  {
  }

  lemma Regroup<T>(a: seq<T>, b: seq<T>, c: seq<T>)
    ensures a + (b + c) == a + b + c
  {
  }

  predicate Distinct<T(==)>(s: seq<T>) { s == [] || (s[0] !in s[1..] && Distinct(s[1..])) }

  lemma {:induction false} DistinctMore<T>(s: seq<T>, x: T)
    requires Distinct(s) && x !in s
    ensures Distinct(s + [x])
    decreases |s|
  {
    if s != [] {
      assert (s + [x])[1..] == s[1..] + [x];
      DistinctMore(s[1..], x);
    }
  }

  lemma {:induction false} DistinctAt<T>(s: seq<T>, i: nat, j: nat)
    requires Distinct(s) && i < j < |s|
    ensures s[i] != s[j]
    decreases |s|
  {
    assert s[j] == s[1..][j - 1];
    if i > 0 { DistinctAt(s[1..], i - 1, j - 1); }
  }

  function Joined<T>(parts: seq<seq<T>>, separator: seq<T>): seq<T>
    requires parts != []
  {
    if |parts| == 1 then parts[0] else parts[0] + separator + Joined(parts[1..], separator)
  }
}
