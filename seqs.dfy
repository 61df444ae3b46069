/** Order-preserving filtering, the `[x for x in s if p(x)]` and `s.filter(p)` of the sources. */
module Seqs {

  function Filter<T>(s: seq<T>, p: T -> bool): (r: seq<T>)
    ensures |r| <= |s|
    ensures forall k :: 0 <= k < |r| ==> p(r[k])
    ensures forall k :: 0 <= k < |r| ==> r[k] in s
    ensures forall k :: 0 <= k < |s| && p(s[k]) ==> s[k] in r
  {
    if s == [] then []
    else if p(s[0]) then [s[0]] + Filter(s[1..], p)
    else Filter(s[1..], p)
  }

  /** `a` is `b` with some elements left out and the rest in their order. */
  predicate IsSubsequence<T(==)>(a: seq<T>, b: seq<T>)
    decreases |b|
  {
    if a == [] then true
    else if b == [] then false
    else (a[0] == b[0] && IsSubsequence(a[1..], b[1..])) || IsSubsequence(a, b[1..])
  }

  lemma {:induction false} FilterIsSubsequence<T>(s: seq<T>, p: T -> bool)
    ensures IsSubsequence(Filter(s, p), s)
  {
    if s != [] {
      FilterIsSubsequence(s[1..], p);
      var r := Filter(s, p);
      if p(s[0]) {
        assert r[0] == s[0] && r[1..] == Filter(s[1..], p);
      }
    }
  }

  lemma {:induction false} FilterConcat<T>(a: seq<T>, b: seq<T>, p: T -> bool)
    ensures Filter(a + b, p) == Filter(a, p) + Filter(b, p)
  {
    if a == [] {
      assert a + b == b;
    } else {
      assert (a + b)[0] == a[0];
      assert (a + b)[1..] == a[1..] + b;
      FilterConcat(a[1..], b, p);
    }
  }

  /** Filtering keeps every element that passes exactly as often as it occurs, and adds nothing. */
  lemma {:induction false} FilterMultiset<T>(s: seq<T>, p: T -> bool)
    ensures multiset(Filter(s, p)) <= multiset(s)
    ensures forall k :: 0 <= k < |s| && p(s[k]) ==> multiset(Filter(s, p))[s[k]] == multiset(s)[s[k]]
  {
    if s != [] {
      var rest := s[1..];
      var kept := Filter(rest, p);
      FilterMultiset(rest, p);
      assert s == [s[0]] + rest;
      assert multiset(s) == multiset([s[0]]) + multiset(rest);
      if p(s[0]) {
        assert Filter(s, p) == [s[0]] + kept;
        assert multiset(Filter(s, p)) == multiset([s[0]]) + multiset(kept);
      } else {
        assert Filter(s, p) == kept;
      }
      forall k | 0 <= k < |s| && p(s[k])
        ensures multiset(Filter(s, p))[s[k]] == multiset(s)[s[k]]
      {
        var x := s[k];
        if x in rest {
          var j :| 0 <= j < |rest| && rest[j] == x;
          assert multiset(kept)[x] == multiset(rest)[x];
        } else {
          assert multiset(rest)[x] == 0;
          assert multiset(kept)[x] == 0;
        }
      }
    }
  }

  lemma {:induction false} FilterNoneIff<T>(s: seq<T>, p: T -> bool)
    ensures Filter(s, p) == [] <==> forall k :: 0 <= k < |s| ==> !p(s[k])
  {
    if s != [] {
      FilterNoneIff(s[1..], p);
      assert forall k :: 1 <= k < |s| ==> s[k] == s[1..][k - 1];
    }
  }

  /** A stricter test keeps no more elements. */
  lemma {:induction false} FilterLength<T>(s: seq<T>, p: T -> bool, q: T -> bool)
    requires forall x :: p(x) ==> q(x)
    ensures |Filter(s, p)| <= |Filter(s, q)|
  {
    if s != [] {
      FilterLength(s[1..], p, q);
    }
  }

  /** Filtering by a test and by its negation splits the sequence in two. */
  lemma {:induction false} FilterComplement<T>(s: seq<T>, p: T -> bool, q: T -> bool)
    requires forall x :: q(x) == !p(x)
    ensures |Filter(s, p)| + |Filter(s, q)| == |s|
  {
    if s != [] {
      FilterComplement(s[1..], p, q);
    }
  }

  /** `tasks.filter((_, i) => i !== index)`: the element at index left out, the rest in order. */
  function Without<T>(s: seq<T>, index: int): (r: seq<T>)
    ensures 0 <= index < |s| ==> |r| == |s| - 1
    ensures 0 <= index < |s| ==> forall k :: 0 <= k < index ==> r[k] == s[k]
    ensures 0 <= index < |s| ==> forall k :: index <= k < |r| ==> r[k] == s[k + 1]
    ensures !(0 <= index < |s|) ==> r == s
  {
    if 0 <= index < |s| then s[..index] + s[index + 1..] else s
  }

  /** Concatenation is associative; stated once so callers need not unfold long literals. */
  lemma AppendAssoc<T>(a: seq<T>, b: seq<T>, c: seq<T>)
    ensures a + (b + c) == a + b + c
  {
  }

  /** Removing an element takes exactly that element out of the list's multiset. */
  lemma WithoutMultiset<T>(s: seq<T>, index: int)
    requires 0 <= index < |s|
    ensures multiset(Without(s, index)) + multiset{s[index]} == multiset(s)
  {
    assert s == s[..index] + [s[index]] + s[index + 1..];
  }
}
