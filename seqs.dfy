/** Order-preserving selection and de-duplication of sequences (`Array.prototype.filter`, `[...new Set(xs)]`). */
module Seqs {

  /** `a` is `b` with some elements left out, the rest in their original order. */
  predicate IsSubsequence<T(==,!new)>(a: seq<T>, b: seq<T>)
    decreases |b|
  {
    a == [] || (b != [] && ((a[0] == b[0] && IsSubsequence(a[1..], b[1..])) || IsSubsequence(a, b[1..])))
  }

  /** `s.filter(keep)` */
  function Filter<T(==,!new)>(s: seq<T>, keep: T -> bool): (r: seq<T>)
    ensures |r| <= |s|
    ensures IsSubsequence(r, s)
    ensures forall x :: x in r <==> x in s && keep(x)
  {
    if s == [] then []
    else if keep(s[0]) then [s[0]] + Filter(s[1..], keep)
    else Filter(s[1..], keep)
  }

  /** A filter that keeps everything returns its input. */
  lemma {:induction false} FilterAll<T(!new)>(s: seq<T>, keep: T -> bool)
    requires forall x :: x in s ==> keep(x)
    ensures Filter(s, keep) == s
  {
    if s != [] {
      FilterAll(s[1..], keep);
    }
  }

  /** Filtering distributes over concatenation. */
  lemma {:induction false} FilterAppend<T(!new)>(a: seq<T>, b: seq<T>, keep: T -> bool)
    ensures Filter(a + b, keep) == Filter(a, keep) + Filter(b, keep)
  {
    if a == [] {
      assert a + b == b;
    } else {
      assert (a + b)[1..] == a[1..] + b;
      FilterAppend(a[1..], b, keep);
    }
  }

  /** Filtering a sequence extended by one element extends the filtered prefix by that element if it is kept. */
  lemma FilterSnoc<T(!new)>(s: seq<T>, x: T, keep: T -> bool)
    ensures Filter(s + [x], keep) == Filter(s, keep) + (if keep(x) then [x] else [])
  {
    FilterAppend(s, [x], keep);
    assert Filter([x], keep) == if keep(x) then [x] else [];
  }

  predicate NoDuplicates<T(==,!new)>(s: seq<T>) {
    forall i, j :: 0 <= i < j < |s| ==> s[i] != s[j]
  }

  /** Position of the first occurrence of `x` in `s`. */
  function IndexOf<T(==)>(s: seq<T>, x: T): (k: nat)
    requires x in s
    ensures k < |s| && s[k] == x
  {
    if s[0] == x then 0 else 1 + IndexOf(s[1..], x)
  }

  /** No occurrence of `x` comes before `IndexOf(s, x)`. */
  lemma {:induction false} IndexOfFirst<T(!new)>(s: seq<T>, x: T)
    requires x in s
    ensures forall j :: 0 <= j < IndexOf(s, x) ==> s[j] != x
  {
    if s[0] != x {
      IndexOfFirst(s[1..], x);
      forall j | 0 <= j < IndexOf(s, x) ensures s[j] != x {
        if j > 0 {
          assert s[j] == s[1..][j - 1];
        }
      }
    }
  }

  /** `[...new Set(s)]` restricted to the elements not in `seen`: each new element once, at its first occurrence. */
  function DistinctFrom<T(==,!new)>(s: seq<T>, seen: set<T>): (r: seq<T>)
    ensures forall x :: x in r <==> x in s && x !in seen
  {
    if s == [] then []
    else if s[0] in seen then DistinctFrom(s[1..], seen)
    else [s[0]] + DistinctFrom(s[1..], seen + {s[0]})
  }

  /** `[...new Set(s)]` */
  function Distinct<T(==,!new)>(s: seq<T>): (r: seq<T>)
    ensures forall x :: x in r <==> x in s
  {
    DistinctFrom(s, {})
  }

  /** Each element is kept once. */
  lemma {:induction false} DistinctFromNoDuplicates<T(!new)>(s: seq<T>, seen: set<T>)
    ensures NoDuplicates(DistinctFrom(s, seen))
    decreases |s|
  {
    if s != [] {
      if s[0] in seen {
        DistinctFromNoDuplicates(s[1..], seen);
      } else {
        var r' := DistinctFrom(s[1..], seen + {s[0]});
        DistinctFromNoDuplicates(s[1..], seen + {s[0]});
        var r := [s[0]] + r';
        forall i, j | 0 <= i < j < |r|
          ensures r[i] != r[j]
        {
          assert r[j] == r'[j - 1];
          if i > 0 {
            assert r[i] == r'[i - 1];
          } else {
            assert r'[j - 1] in r';
          }
        }
      }
    }
  }

  lemma DistinctNoDuplicates<T(!new)>(s: seq<T>)
    ensures NoDuplicates(Distinct(s))
  {
    DistinctFromNoDuplicates(s, {});
  }

  lemma IndexOfTail<T(!new)>(s: seq<T>, x: T)
    requires x in s && x != s[0]
    ensures x in s[1..] && IndexOf(s, x) == 1 + IndexOf(s[1..], x)
  {
  }

  /** The distinct elements come in the order of their first occurrences. */
  lemma {:induction false} DistinctFromOrder<T(!new)>(s: seq<T>, seen: set<T>, i: nat, j: nat)
    requires i < j < |DistinctFrom(s, seen)|
    ensures IndexOf(s, DistinctFrom(s, seen)[i]) < IndexOf(s, DistinctFrom(s, seen)[j])
    decreases |s|
  {
    var r := DistinctFrom(s, seen);
    assert s != [];
    var x, y := r[i], r[j];
    assert x in r && y in r;
    if s[0] in seen {
      assert r == DistinctFrom(s[1..], seen);
      DistinctFromOrder(s[1..], seen, i, j);
      IndexOfTail(s, x);
      IndexOfTail(s, y);
    } else {
      var seen' := seen + {s[0]};
      var r' := DistinctFrom(s[1..], seen');
      assert r == [s[0]] + r';
      assert y == r'[j - 1] && y in r';
      assert y != s[0];
      IndexOfTail(s, y);
      if i == 0 {
        assert x == s[0] && IndexOf(s, x) == 0;
      } else {
        assert x == r'[i - 1] && x in r';
        assert x != s[0];
        DistinctFromOrder(s[1..], seen', i - 1, j - 1);
        IndexOfTail(s, x);
      }
    }
  }

  lemma DistinctOrder<T(!new)>(s: seq<T>, i: nat, j: nat)
    requires i < j < |Distinct(s)|
    ensures IndexOf(s, Distinct(s)[i]) < IndexOf(s, Distinct(s)[j])
  {
    DistinctFromOrder(s, {}, i, j);
  }

  /** `s.slice().reverse()` */
  function Reverse<T(==,!new)>(s: seq<T>): (r: seq<T>)
    ensures |r| == |s|
    ensures forall i :: 0 <= i < |s| ==> r[i] == s[|s| - 1 - i]
    ensures forall x :: x in r <==> x in s
  {
    if s == [] then [] else Reverse(s[1..]) + [s[0]]
  }

  /** `xs.map(f).join("")`: the pieces of the elements one after the other, in order. */
  function FlatMap<T, U>(xs: seq<T>, f: T -> seq<U>): seq<U>
    decreases |xs|
  {
    if xs == [] then [] else FlatMap(xs[..|xs| - 1], f) + f(xs[|xs| - 1])
  }

  /** Mapping a concatenation concatenates the mapped pieces. */
  lemma {:induction false} FlatMapAppend<T, U>(a: seq<T>, b: seq<T>, f: T -> seq<U>)
    ensures FlatMap(a + b, f) == FlatMap(a, f) + FlatMap(b, f)
    decreases |b|
  {
    if b == [] {
      assert a + b == a;
    } else {
      var n := |b| - 1;
      assert (a + b)[..|a + b| - 1] == a + b[..n];
      FlatMapAppend(a, b[..n], f);
    }
  }
}
