/** The two array operations every list handler is built from: `Array.prototype.filter`
    and an id-targeted `Array.prototype.map` (`xs.map(x => p(x) ? f(x) : x)`). */
module Lists {

  /** `s.filter(p)`: the elements satisfying `p`, visited left to right. */
  function Filter<T>(s: seq<T>, p: T -> bool): (r: seq<T>)
    ensures |r| <= |s|
    ensures forall i :: 0 <= i < |r| ==> p(r[i])
  {
    if s == [] then []
    else if p(s[0]) then [s[0]] + Filter(s[1..], p)
    else Filter(s[1..], p)
  }

  /** `s.map(x => p(x) ? f(x) : x)`: same length, `f` applied exactly where `p` holds. */
  function MapWhere<T>(s: seq<T>, p: T -> bool, f: T -> T): (r: seq<T>)
    ensures |r| == |s|
    ensures forall i :: 0 <= i < |s| ==> r[i] == if p(s[i]) then f(s[i]) else s[i]
  {
    if s == [] then [] else [if p(s[0]) then f(s[0]) else s[0]] + MapWhere(s[1..], p, f)
  }

  /** `a` is `b` with some elements left out, the rest in their original order. */
  predicate Subseq<T(==)>(a: seq<T>, b: seq<T>)
    decreases |b|
  {
    a == [] || (b != [] && ((a[0] == b[0] && Subseq(a[1..], b[1..])) || Subseq(a, b[1..])))
  }

  /** Every list is a sub-sequence of itself. */
  lemma {:induction false} SubseqReflexive<T>(s: seq<T>)
    ensures Subseq(s, s)
  {
    if s != [] {
      SubseqReflexive(s[1..]);
    }
  }

  /** A sub-sequence of a sub-sequence is a sub-sequence. */
  lemma {:induction false} SubseqTransitive<T>(a: seq<T>, b: seq<T>, c: seq<T>)
    requires Subseq(a, b) && Subseq(b, c)
    ensures Subseq(a, c)
    decreases |c|
  {
    if a != [] {
      if b[0] == c[0] && Subseq(b[1..], c[1..]) {
        if a[0] == b[0] && Subseq(a[1..], b[1..]) {
          SubseqTransitive(a[1..], b[1..], c[1..]);
        } else {
          SubseqTransitive(a, b[1..], c[1..]);
        }
      } else {
        SubseqTransitive(a, b, c[1..]);
      }
    }
  }

  /** A filtered list keeps the order of the original. */
  lemma {:induction false} FilterSubseq<T>(s: seq<T>, p: T -> bool)
    ensures Subseq(Filter(s, p), s)
  {
    if s != [] {
      FilterSubseq(s[1..], p);
    }
  }

  /** Each value occurs in the filtered list as often as in the original
      if it satisfies `p`, and not at all otherwise. */
  lemma {:induction false} FilterMultiset<T>(s: seq<T>, p: T -> bool, x: T)
    ensures multiset(Filter(s, p))[x] == if p(x) then multiset(s)[x] else 0
  {
    if s != [] {
      FilterMultiset(s[1..], p, x);
      assert s == [s[0]] + s[1..];
    }
  }

  /** A filtered list holds exactly the elements of the original that satisfy `p`. */
  lemma FilterMembership<T>(s: seq<T>, p: T -> bool)
    ensures forall x :: x in Filter(s, p) <==> x in s && p(x)
  {
    forall x ensures x in Filter(s, p) <==> x in s && p(x) {
      FilterMultiset(s, p, x);
    }
  }

  /** Filtering a second time by the same predicate changes nothing. */
  lemma {:induction false} FilterIdempotent<T>(s: seq<T>, p: T -> bool)
    ensures Filter(Filter(s, p), p) == Filter(s, p)
  {
    if s != [] {
      FilterIdempotent(s[1..], p);
    }
  }

  /** Filtering keeps everything when every element satisfies `p`. */
  lemma {:induction false} FilterKeepsAll<T>(s: seq<T>, p: T -> bool)
    requires forall i :: 0 <= i < |s| ==> p(s[i])
    ensures Filter(s, p) == s
  {
    if s != [] {
      FilterKeepsAll(s[1..], p);
    }
  }

  /** Filtering drops everything when no element satisfies `p`. */
  lemma {:induction false} FilterDropsAll<T>(s: seq<T>, p: T -> bool)
    requires forall i :: 0 <= i < |s| ==> !p(s[i])
    ensures Filter(s, p) == []
  {
    if s != [] {
      FilterDropsAll(s[1..], p);
    }
  }

  /** Filtering by `p` and by its negation `q` splits the list: the two lengths add up. */
  lemma {:induction false} FilterPartition<T>(s: seq<T>, p: T -> bool, q: T -> bool)
    requires forall x :: q(x) == !p(x)
    ensures |Filter(s, p)| + |Filter(s, q)| == |s|
  {
    if s != [] {
      FilterPartition(s[1..], p, q);
    }
  }

  /** A stronger predicate keeps no more elements. */
  lemma {:induction false} FilterMonotone<T>(s: seq<T>, p: T -> bool, q: T -> bool)
    requires forall x :: p(x) ==> q(x)
    ensures |Filter(s, p)| <= |Filter(s, q)|
  {
    if s != [] {
      FilterMonotone(s[1..], p, q);
    }
  }
}
