/** Order-preserving de-duplication and truncation of sequences, the two
    list operations the extractor's loop performs implicitly. */
module Sequences {

  /** `s` with every element after its first occurrence removed, in order
      of first occurrence. */
  function Dedup<T(==)>(s: seq<T>): (r: seq<T>)
    ensures |r| <= |s|
  {
    if s == [] then []
    else
      var d := Dedup(s[..|s| - 1]);
      if s[|s| - 1] in d then d else d + [s[|s| - 1]]
  }

  /** Appending one element to the input appends it to the output exactly
      when it is new. */
  lemma DedupSnoc<T>(s: seq<T>, x: T)
    ensures Dedup(s + [x]) == if x in s then Dedup(s) else Dedup(s) + [x]
  {
    assert (s + [x])[..|s|] == s;
    DedupMember(s, x);
  }

  /** De-duplication keeps exactly the elements of the input. */
  lemma {:induction false} DedupMember<T>(s: seq<T>, x: T)
    ensures x in Dedup(s) <==> x in s
  {
    if s != [] {
      var p := s[..|s| - 1];
      DedupMember(p, x);
      DedupMember(p, s[|s| - 1]);
      assert s == p + [s[|s| - 1]];
    }
  }

  /** No element occurs twice in the output. */
  lemma {:induction false} DedupDistinct<T>(s: seq<T>)
    ensures forall i, j :: 0 <= i < j < |Dedup(s)| ==> Dedup(s)[i] != Dedup(s)[j]
  {
    if s != [] {
      var p := s[..|s| - 1];
      DedupDistinct(p);
      DedupMember(p, s[|s| - 1]);
    }
  }

  /** De-duplicating a prefix gives a prefix of the de-duplicated whole. */
  lemma {:induction false} DedupPrefix<T>(s: seq<T>, n: nat)
    requires n <= |s|
    ensures Dedup(s[..n]) <= Dedup(s)
  {
    if n < |s| {
      var p := s[..|s| - 1];
      DedupPrefix(p, n);
      assert p[..n] == s[..n];
      var a, b := Dedup(s[..n]), Dedup(p);
      assert a == b[..|a|];
      assert b == Dedup(s)[..|b|];
    } else {
      assert s[..n] == s;
    }
  }

  /** The position of the first occurrence of `x` in `s`. */
  function FirstIndex<T(==)>(s: seq<T>, x: T): (i: nat)
    requires x in s
    ensures i < |s| && s[i] == x && x !in s[..i]
  {
    if s[0] == x then 0 else 1 + FirstIndex(s[1..], x)
  }

  lemma FirstIndexPrefix<T>(s: seq<T>, n: nat, x: T)
    requires n <= |s| && x in s[..n]
    ensures FirstIndex(s[..n], x) == FirstIndex(s, x)
  {
    var i := FirstIndex(s[..n], x);
    assert s[..n][..i] == s[..i];
  }

  /** The output lists the distinct elements in the order of their first
      occurrence in the input. */
  lemma {:induction false} DedupOrder<T>(s: seq<T>, i: nat, j: nat)
    requires i < j < |Dedup(s)|
    ensures Dedup(s)[i] in s && Dedup(s)[j] in s
    ensures FirstIndex(s, Dedup(s)[i]) < FirstIndex(s, Dedup(s)[j])
  {
    var p := s[..|s| - 1];
    var last := s[|s| - 1];
    var d := Dedup(p);
    assert s == p + [last];
    var x, y := Dedup(s)[i], Dedup(s)[j];
    DedupMember(s, x);
    DedupMember(s, y);
    DedupMember(p, x);
    DedupMember(p, last);
    if j < |d| {
      DedupOrder(p, i, j);
      FirstIndexPrefix(s, |s| - 1, x);
      FirstIndexPrefix(s, |s| - 1, y);
    } else {
      assert y == last && last !in p;
      FirstIndexPrefix(s, |s| - 1, x);
      assert FirstIndex(s, y) == |s| - 1 by {
        assert s[..|s| - 1] == p;
      }
    }
  }

  /** Concatenation is associative; stated once so that callers whose
      contexts are heavy need not prove it by extensionality. */
  lemma AppendAssoc<T>(a: seq<T>, b: seq<T>, c: seq<T>)
    ensures a + (b + c) == (a + b) + c
  {
  }

  /** The first `n` elements of `s` (all of them when `s` is shorter). */
  function Take<T>(s: seq<T>, n: nat): (r: seq<T>)
    ensures r <= s && |r| == if n < |s| then n else |s|
  {
    if n < |s| then s[..n] else s
  }
}
