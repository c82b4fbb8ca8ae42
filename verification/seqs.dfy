/** Sequence operations the dashboard is built from: `Array.prototype.filter`,
    the stable `Array.prototype.sort`, `reduce` sums and `slice`. */
module Seqs {

  function Min(a: int, b: int): int {
    if a <= b then a else b
  }

  /** `a` can be obtained from `b` by deleting elements: the elements of `a`
      occur in `b` in the same relative order. */
  predicate Subseq<T(==)>(a: seq<T>, b: seq<T>)
    decreases |b|
  {
    if a == [] then true
    else if b == [] then false
    else if a[0] == b[0] then Subseq(a[1..], b[1..])
    else Subseq(a, b[1..])
  }

  /** `xs.filter(p)`: the elements satisfying `p`, in their original order. */
  function Select<T(==)>(xs: seq<T>, p: T -> bool): (r: seq<T>)
    ensures |r| <= |xs|
    ensures forall i :: 0 <= i < |r| ==> r[i] in xs && p(r[i])
    ensures forall i :: 0 <= i < |xs| && p(xs[i]) ==> xs[i] in r
    decreases |xs|
  {
    if xs == [] then []
    else (if p(xs[0]) then [xs[0]] else []) + Select(xs[1..], p)
  }

  /** Filtering keeps the elements it keeps in their original order. */
  lemma {:induction false} SelectIsSubseq<T>(xs: seq<T>, p: T -> bool)
    ensures Subseq(Select(xs, p), xs)
    decreases |xs|
  {
    if xs != [] {
      SelectIsSubseq(xs[1..], p);
      if p(xs[0]) {
        assert Select(xs, p) == [xs[0]] + Select(xs[1..], p);
      } else {
        assert Select(xs, p) == Select(xs[1..], p);
        SubseqOfTail(Select(xs, p), xs);
      }
    }
  }

  lemma {:induction false} SubseqOfTail<T>(a: seq<T>, b: seq<T>)
    requires b != [] && Subseq(a, b[1..])
    ensures Subseq(a, b)
    decreases |b|, |a|
  {
    if a != [] && a[0] == b[0] {
      SubseqDropHead(a, b[1..]);
    }
  }

  lemma {:induction false} SubseqDropHead<T>(a: seq<T>, b: seq<T>)
    requires a != [] && Subseq(a, b)
    ensures Subseq(a[1..], b)
    decreases |b|, |a|
  {
    if a[0] == b[0] {
      if a[1..] != [] {
        SubseqOfTail(a[1..], b);
      }
    } else {
      SubseqDropHead(a, b[1..]);
      if a[1..] != [] {
        SubseqOfTail(a[1..], b);
      }
    }
  }

  /** Filtering a concatenation filters each part: together with the singleton
      case this pins `Select` down as the order-preserving filter. */
  lemma {:induction false} SelectAppend<T>(a: seq<T>, b: seq<T>, p: T -> bool)
    ensures Select(a + b, p) == Select(a, p) + Select(b, p)
    decreases |a|
  {
    if a != [] {
      assert (a + b)[0] == a[0];
      assert (a + b)[1..] == a[1..] + b;
      SelectAppend(a[1..], b, p);
    } else {
      assert a + b == b;
    }
  }

  /** Two successive filters are one filter by the conjunction. */
  lemma {:induction false} SelectSelect<T>(xs: seq<T>, p: T -> bool, q: T -> bool, pq: T -> bool)
    requires forall x :: pq(x) == (p(x) && q(x))
    ensures Select(Select(xs, p), q) == Select(xs, pq)
    decreases |xs|
  {
    if xs != [] {
      SelectSelect(xs[1..], p, q, pq);
      var head := if p(xs[0]) then [xs[0]] else [];
      assert Select(xs, p) == head + Select(xs[1..], p);
      SelectAppend(head, Select(xs[1..], p), q);
    }
  }

  /** Each kept value is kept as many times as it occurs. */
  lemma {:induction false} SelectCount<T>(xs: seq<T>, p: T -> bool, x: T)
    ensures multiset(Select(xs, p))[x] == if p(x) then multiset(xs)[x] else 0
    decreases |xs|
  {
    if xs != [] {
      SelectCount(xs[1..], p, x);
      assert xs == [xs[0]] + xs[1..];
    }
  }

  /** `xs.reduce((s, x) => s + f(x), 0)`: a left fold, summing front to back. */
  function SumBy<T>(xs: seq<T>, f: T -> real): real
    decreases |xs|
  {
    if xs == [] then 0.0 else SumBy(xs[..|xs| - 1], f) + f(xs[|xs| - 1])
  }

  function SumIntBy<T>(xs: seq<T>, f: T -> int): int
    decreases |xs|
  {
    if xs == [] then 0 else SumIntBy(xs[..|xs| - 1], f) + f(xs[|xs| - 1])
  }

  /** The sum of a concatenation is the sum of the parts. */
  lemma {:induction false} SumByAppend<T>(a: seq<T>, b: seq<T>, f: T -> real)
    ensures SumBy(a + b, f) == SumBy(a, f) + SumBy(b, f)
    decreases |b|
  {
    if b != [] {
      assert (a + b)[..|a + b| - 1] == a + b[..|b| - 1];
      assert (a + b)[|a + b| - 1] == b[|b| - 1];
      SumByAppend(a, b[..|b| - 1], f);
    } else {
      assert a + b == a;
    }
  }

  lemma {:induction false} SumIntByAppend<T>(a: seq<T>, b: seq<T>, f: T -> int)
    ensures SumIntBy(a + b, f) == SumIntBy(a, f) + SumIntBy(b, f)
    decreases |b|
  {
    if b != [] {
      assert (a + b)[..|a + b| - 1] == a + b[..|b| - 1];
      assert (a + b)[|a + b| - 1] == b[|b| - 1];
      SumIntByAppend(a, b[..|b| - 1], f);
    } else {
      assert a + b == a;
    }
  }

  /** A sum of non-negative terms is non-negative. */
  lemma {:induction false} SumByNonNegative<T>(xs: seq<T>, f: T -> real)
    requires forall i :: 0 <= i < |xs| ==> f(xs[i]) >= 0.0
    ensures SumBy(xs, f) >= 0.0
    decreases |xs|
  {
    if xs != [] {
      SumByNonNegative(xs[..|xs| - 1], f);
    }
  }

  predicate SortedBy<T>(xs: seq<T>, key: T -> real) {
    forall i, j :: 0 <= i < j < |xs| ==> key(xs[i]) <= key(xs[j])
  }

  /** Places `x` before the first element whose key is not smaller, so that
      `x` precedes every element of `ys` with the same key. */
  function Insert<T(==)>(x: T, ys: seq<T>, key: T -> real): (r: seq<T>)
    requires SortedBy(ys, key)
    ensures multiset(r) == multiset(ys) + multiset{x}
    ensures |r| == |ys| + 1
    ensures SortedBy(r, key)
    decreases |ys|
  {
    if ys == [] then [x]
    else if key(x) <= key(ys[0]) then [x] + ys
    else
      var rest := Insert(x, ys[1..], key);
      InsertPastHead(x, ys, key, rest);
      [ys[0]] + rest
  }

  /** Putting `ys[0]` back in front of `x` inserted into the tail keeps the
      order, since `ys[0]`'s key is below `x`'s and the tail's. */
  lemma InsertPastHead<T>(x: T, ys: seq<T>, key: T -> real, rest: seq<T>)
    requires ys != [] && SortedBy(ys, key) && key(ys[0]) < key(x)
    requires multiset(rest) == multiset(ys[1..]) + multiset{x} && SortedBy(rest, key)
    ensures multiset([ys[0]] + rest) == multiset(ys) + multiset{x}
    ensures SortedBy([ys[0]] + rest, key)
  {
    assert ys == [ys[0]] + ys[1..];
    forall k | 0 <= k < |rest|
      ensures key(ys[0]) <= key(rest[k])
    {
      assert rest[k] in multiset(rest);
      if rest[k] != x {
        assert rest[k] in multiset(ys[1..]);
        var m :| 0 <= m < |ys[1..]| && ys[1..][m] == rest[k];
        assert ys[m + 1] == rest[k];
      }
    }
    var r := [ys[0]] + rest;
    forall i, j | 0 <= i < j < |r|
      ensures key(r[i]) <= key(r[j])
    {
      if i > 0 {
        assert r[i] == rest[i - 1] && r[j] == rest[j - 1];
      } else {
        assert r[j] == rest[j - 1];
      }
    }
  }

  /** A stable sort ascending by `key` (insertion sort). */
  function SortBy<T(==)>(xs: seq<T>, key: T -> real): (r: seq<T>)
    ensures multiset(r) == multiset(xs)
    ensures |r| == |xs|
    ensures SortedBy(r, key)
    decreases |xs|
  {
    if xs == [] then []
    else
      assert xs == [xs[0]] + xs[1..];
      Insert(xs[0], SortBy(xs[1..], key), key)
  }

  /** The elements of `xs` whose key is `v`, in order. */
  function WithKey<T>(xs: seq<T>, key: T -> real, v: real): seq<T>
    decreases |xs|
  {
    if xs == [] then [] else KeyPart(xs[0], key, v) + WithKey(xs[1..], key, v)
  }

  function KeyPart<T>(x: T, key: T -> real, v: real): seq<T> {
    if key(x) == v then [x] else []
  }

  lemma WithKeyCons<T>(x: T, xs: seq<T>, key: T -> real, v: real)
    ensures WithKey([x] + xs, key, v) == KeyPart(x, key, v) + WithKey(xs, key, v)
  {
    assert ([x] + xs)[1..] == xs;
  }

  lemma {:induction false} InsertStable<T>(x: T, ys: seq<T>, key: T -> real, v: real)
    requires SortedBy(ys, key)
    ensures WithKey(Insert(x, ys, key), key, v) == WithKey([x] + ys, key, v)
    decreases |ys|
  {
    if ys != [] && key(ys[0]) < key(x) {
      var y, tail := ys[0], ys[1..];
      InsertUnfold(x, ys, key);
      InsertStable(x, tail, key, v);
      assert ys == [y] + tail;
      PassOver(x, y, tail, Insert(x, tail, key), key, v);
    } else if ys != [] {
      assert Insert(x, ys, key) == [x] + ys;
    } else {
      assert Insert(x, ys, key) == [x] + ys;
    }
  }

  /** Moving `x` past a `y` with a smaller key does not reorder the elements
      of any one key. */
  lemma PassOver<T>(x: T, y: T, tail: seq<T>, rest: seq<T>, key: T -> real, v: real)
    requires key(y) < key(x)
    requires WithKey(rest, key, v) == WithKey([x] + tail, key, v)
    ensures WithKey([y] + rest, key, v) == WithKey([x] + ([y] + tail), key, v)
  {
    WithKeyCons(y, rest, key, v);
    WithKeyCons(x, tail, key, v);
    WithKeyCons(x, [y] + tail, key, v);
    WithKeyCons(y, tail, key, v);
    if key(x) == v {
      assert KeyPart(y, key, v) == [];
    } else {
      assert KeyPart(x, key, v) == [];
    }
  }

  lemma InsertUnfold<T>(x: T, ys: seq<T>, key: T -> real)
    requires ys != [] && SortedBy(ys, key) && key(ys[0]) < key(x)
    ensures SortedBy(ys[1..], key)
    ensures Insert(x, ys, key) == [ys[0]] + Insert(x, ys[1..], key)
  {
  }

  /** Stability: for every key value, the elements carrying it come out in the
      order they went in. With `SortBy`'s own contract this determines the
      result completely. */
  lemma {:induction false} SortByStable<T>(xs: seq<T>, key: T -> real, v: real)
    ensures WithKey(SortBy(xs, key), key, v) == WithKey(xs, key, v)
    decreases |xs|
  {
    if xs != [] {
      var sorted := SortBy(xs[1..], key);
      SortByStable(xs[1..], key, v);
      InsertStable(xs[0], sorted, key, v);
      WithKeyCons(xs[0], sorted, key, v);
    }
  }

  predicate IsPrefix<T(==)>(a: seq<T>, b: seq<T>) {
    |a| <= |b| && b[..|a|] == a
  }

  lemma {:induction false} WithKeyAppend<T>(a: seq<T>, b: seq<T>, key: T -> real, v: real)
    ensures WithKey(a + b, key, v) == WithKey(a, key, v) + WithKey(b, key, v)
    decreases |a|
  {
    if a == [] {
      assert a + b == b;
    } else {
      assert (a + b)[0] == a[0];
      assert (a + b)[1..] == a[1..] + b;
      WithKeyAppend(a[1..], b, key, v);
    }
  }

  lemma {:induction false} SumByZero<T>(xs: seq<T>, f: T -> real)
    requires forall i :: 0 <= i < |xs| ==> f(xs[i]) == 0.0
    ensures SumBy(xs, f) == 0.0
    decreases |xs|
  {
    if xs != [] {
      SumByZero(xs[..|xs| - 1], f);
    }
  }

  lemma {:induction false} SumIntByZero<T>(xs: seq<T>, f: T -> int)
    requires forall i :: 0 <= i < |xs| ==> f(xs[i]) == 0
    ensures SumIntBy(xs, f) == 0
    decreases |xs|
  {
    if xs != [] {
      SumIntByZero(xs[..|xs| - 1], f);
    }
  }
}
