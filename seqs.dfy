/** The array operations the components are written with (`filter`, `map`,
    spread-append), stated once over sequences, with the facts about them
    that the rest of the model uses. */
module Seqs {

  /** `undefined` / `null` versus a value. */
  datatype Option<T> = None | Some(value: T)

  /** `Array.prototype.filter`: the elements satisfying `p`, in their original order. */
  function Filter<T(!new)>(p: T -> bool, s: seq<T>): (r: seq<T>)
    ensures |r| <= |s|
    ensures forall i :: 0 <= i < |r| ==> p(r[i])
  {
    if s == [] then [] else (if p(s[0]) then [s[0]] else []) + Filter(p, s[1..])
  }

  /** Each value occurs in a filter as often as in the sequence when it passes,
      and not at all otherwise. */
  lemma {:induction false} FilterMultiset<T(!new)>(p: T -> bool, s: seq<T>)
    ensures forall x :: multiset(Filter(p, s))[x] == if p(x) then multiset(s)[x] else 0
    ensures forall x :: x in Filter(p, s) <==> x in s && p(x)
  {
    if s != [] {
      FilterMultiset(p, s[1..]);
      assert s == [s[0]] + s[1..];
    }
  }

  /** `Array.prototype.map` with a conditional update: the elements satisfying
      `p` are replaced by their image under `f`, every other element stays. */
  function MapWhere<T>(p: T -> bool, f: T -> T, s: seq<T>): (r: seq<T>)
    ensures |r| == |s|
    ensures forall i :: 0 <= i < |s| && !p(s[i]) ==> r[i] == s[i]
    ensures forall i :: 0 <= i < |s| && p(s[i]) ==> r[i] == f(s[i])
  {
    seq(|s|, i requires 0 <= i < |s| => if p(s[i]) then f(s[i]) else s[i])
  }

  /** `Array.prototype.map`: the image of every element, in order. */
  function Map<A, B>(f: A -> B, s: seq<A>): (r: seq<B>)
    ensures |r| == |s|
    ensures forall i :: 0 <= i < |s| ==> r[i] == f(s[i])
  {
    seq(|s|, i requires 0 <= i < |s| => f(s[i]))
  }

  /** `r` is `s` with some elements left out, the rest in their original order. */
  predicate IsSubseq<T(==)>(r: seq<T>, s: seq<T>)
    decreases |s|
  {
    r == [] || (s != [] && ((r[0] == s[0] && IsSubseq(r[1..], s[1..])) || IsSubseq(r, s[1..])))
  }

  /** Filtering keeps the original relative order. */
  lemma {:induction false} FilterIsSubseq<T(!new)>(p: T -> bool, s: seq<T>)
    ensures IsSubseq(Filter(p, s), s)
  {
    if s != [] {
      FilterIsSubseq(p, s[1..]);
      var r := Filter(p, s);
      if p(s[0]) {
        assert r[0] == s[0] && r[1..] == Filter(p, s[1..]);
      } else {
        assert r == Filter(p, s[1..]);
      }
    }
  }

  lemma {:induction false} SubseqTransitive<T>(a: seq<T>, b: seq<T>, c: seq<T>)
    requires IsSubseq(a, b) && IsSubseq(b, c)
    ensures IsSubseq(a, c)
    decreases |c|
  {
    if a != [] {
      assert b != [] && c != [];
      if IsSubseq(b, c[1..]) {
        SubseqTransitive(a, b, c[1..]);
      } else if a[0] == b[0] && IsSubseq(a[1..], b[1..]) {
        SubseqTransitive(a[1..], b[1..], c[1..]);
      } else {
        SubseqTransitive(a, b[1..], c[1..]);
      }
    }
  }

  /** Filtering distributes over concatenation. */
  lemma {:induction false} FilterAppend<T(!new)>(p: T -> bool, a: seq<T>, b: seq<T>)
    ensures Filter(p, a + b) == Filter(p, a) + Filter(p, b)
  {
    if a != [] {
      assert (a + b)[1..] == a[1..] + b;
      FilterAppend(p, a[1..], b);
    } else {
      assert a + b == b;
    }
  }

  /** A filter that every element passes keeps the whole sequence; one that
      no element passes keeps nothing. */
  lemma {:induction false} FilterAllOrNone<T(!new)>(p: T -> bool, s: seq<T>)
    ensures (forall i :: 0 <= i < |s| ==> p(s[i])) ==> Filter(p, s) == s
    ensures (forall i :: 0 <= i < |s| ==> !p(s[i])) ==> Filter(p, s) == []
  {
    if s != [] {
      FilterAllOrNone(p, s[1..]);
      assert forall i :: 1 <= i < |s| ==> s[1..][i - 1] == s[i];
    }
  }

  /** The length of a filter is the length of the sequence exactly when every
      element passes, and zero exactly when none does. */
  lemma {:induction false} FilterLength<T(!new)>(p: T -> bool, s: seq<T>)
    ensures |Filter(p, s)| == |s| <==> forall i :: 0 <= i < |s| ==> p(s[i])
    ensures |Filter(p, s)| == 0 <==> forall i :: 0 <= i < |s| ==> !p(s[i])
  {
    if s != [] {
      FilterLength(p, s[1..]);
      assert forall i :: 1 <= i < |s| ==> s[1..][i - 1] == s[i];
    }
  }

  /** A predicate and its negation split a sequence's length between them. */
  lemma {:induction false} FilterComplement<T(!new)>(p: T -> bool, q: T -> bool, s: seq<T>)
    requires forall x :: q(x) == !p(x)
    ensures |Filter(p, s)| + |Filter(q, s)| == |s|
  {
    if s != [] {
      FilterComplement(p, q, s[1..]);
    }
  }

  /** Three predicates of which exactly one holds for every element split a
      sequence into three filters whose multisets add up to the whole. */
  lemma FilterPartition3<T(!new)>(p1: T -> bool, p2: T -> bool, p3: T -> bool, s: seq<T>)
    requires forall x :: (p1(x) || p2(x) || p3(x))
    requires forall x :: !(p1(x) && p2(x)) && !(p1(x) && p3(x)) && !(p2(x) && p3(x))
    ensures multiset(Filter(p1, s)) + multiset(Filter(p2, s)) + multiset(Filter(p3, s)) == multiset(s)
  {
    FilterMultiset(p1, s);
    FilterMultiset(p2, s);
    FilterMultiset(p3, s);
    var m := multiset(Filter(p1, s)) + multiset(Filter(p2, s)) + multiset(Filter(p3, s));
    forall x ensures m[x] == multiset(s)[x] {
      assert p1(x) || p2(x) || p3(x);
    }
  }

  /** A filter that drops every element the update touches, before and after
      the update, cannot tell the updated sequence from the original. */
  lemma {:induction false} FilterAfterMapWhere<T(!new)>(p: T -> bool, f: T -> T, q: T -> bool, s: seq<T>)
    requires forall x :: p(x) ==> !q(x) && !q(f(x))
    ensures Filter(q, MapWhere(p, f, s)) == Filter(q, s)
  {
    if s != [] {
      assert MapWhere(p, f, s)[1..] == MapWhere(p, f, s[1..]);
      FilterAfterMapWhere(p, f, q, s[1..]);
    }
  }

  /** An update that keeps its targets targeted and is itself idempotent may be
      applied twice to the same effect as once. */
  lemma MapWhereIdempotent<T>(p: T -> bool, f: T -> T, s: seq<T>)
    requires forall x :: p(x) ==> p(f(x)) && f(f(x)) == f(x)
    ensures MapWhere(p, f, MapWhere(p, f, s)) == MapWhere(p, f, s)
  {
  }
}
