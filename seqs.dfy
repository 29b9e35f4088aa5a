/** Generic sequence operations the source gets from JavaScript's Array and Set:
    `filter`, `includes`-based de-duplication in insertion order, `slice`, and the
    stable `sort` with a numeric comparator. */
module Seqs {

  /** `a` is `b` with some elements deleted, the rest kept in order. */
  predicate IsSubseq<T(==)>(a: seq<T>, b: seq<T>)
    decreases |b|
  {
    if a == [] then true
    else if b == [] then false
    else if a[0] == b[0] then IsSubseq(a[1..], b[1..])
    else IsSubseq(a, b[1..])
  }

  lemma {:induction false} SubseqDropHead<T>(a: seq<T>, b: seq<T>)
    requires a != [] && IsSubseq(a, b)
    ensures IsSubseq(a[1..], b)
    decreases |b|, 0
  {
    if a[0] != b[0] {
      SubseqDropHead(a, b[1..]);
    }
    SubseqConsRight(a[1..], b[1..], b[0]);
    assert [b[0]] + b[1..] == b;
  }

  lemma {:induction false} SubseqConsRight<T>(a: seq<T>, b: seq<T>, x: T)
    requires IsSubseq(a, b)
    ensures IsSubseq(a, [x] + b)
    decreases |b|, 1
  {
    var xb := [x] + b;
    assert xb[1..] == b;
    if a != [] && a[0] == x {
      SubseqDropHead(a, b);
    }
  }

  /** Deleting elements twice is deleting elements once. */
  lemma {:induction false} SubseqTransitive<T>(a: seq<T>, b: seq<T>, c: seq<T>)
    requires IsSubseq(a, b) && IsSubseq(b, c)
    ensures IsSubseq(a, c)
    decreases |c|
  {
    if a == [] || b == [] {
    } else if b[0] == c[0] {
      if a[0] == b[0] {
        SubseqTransitive(a[1..], b[1..], c[1..]);
      } else {
        SubseqTransitive(a, b[1..], c[1..]);
      }
    } else {
      SubseqTransitive(a, b, c[1..]);
      if a[0] == c[0] {
        SubseqDropHead(a, c[1..]);
      }
    }
  }

  lemma {:induction false} SubseqReflexive<T>(a: seq<T>)
    ensures IsSubseq(a, a)
    decreases |a|
  {
    if a != [] {
      SubseqReflexive(a[1..]);
    }
  }

  lemma {:induction false} SubseqMembers<T>(a: seq<T>, b: seq<T>)
    requires IsSubseq(a, b)
    ensures forall x :: x in a ==> x in b
    decreases |b|
  {
    if a != [] && b != [] {
      if a[0] == b[0] {
        SubseqMembers(a[1..], b[1..]);
        assert forall x :: x in a ==> x == a[0] || x in a[1..];
      } else {
        SubseqMembers(a, b[1..]);
      }
    }
  }

  lemma {:induction false} SubseqAppend<T>(a: seq<T>, b: seq<T>, x: T)
    requires IsSubseq(a, b)
    ensures IsSubseq(a + [x], b + [x])
    decreases |b|
  {
    if a == [] {
      SubseqSingleton(b, x);
      assert a + [x] == [x];
    } else if a[0] == b[0] {
      SubseqAppend(a[1..], b[1..], x);
      assert (a + [x])[1..] == a[1..] + [x];
      assert (b + [x])[1..] == b[1..] + [x];
    } else {
      SubseqAppend(a, b[1..], x);
      assert (b + [x])[1..] == b[1..] + [x];
    }
  }

  lemma {:induction false} SubseqSingleton<T>(b: seq<T>, x: T)
    ensures IsSubseq([x], b + [x])
    decreases |b|
  {
    if b != [] {
      SubseqSingleton(b[1..], x);
      assert (b + [x])[1..] == b[1..] + [x];
    }
  }

  lemma {:induction false} SubseqExtend<T>(a: seq<T>, b: seq<T>, x: T)
    requires IsSubseq(a, b)
    ensures IsSubseq(a, b + [x])
    decreases |b|
  {
    if a != [] && b != [] {
      assert (b + [x])[1..] == b[1..] + [x];
      if a[0] == b[0] {
        SubseqExtend(a[1..], b[1..], x);
      } else {
        SubseqExtend(a, b[1..], x);
      }
    }
  }

  /** `Array.prototype.filter`: the elements of `s` satisfying `p`, in order.
      Defined from the right so that a loop over a growing prefix can follow it. */
  function Filter<T(==,!new)>(s: seq<T>, p: T -> bool): (r: seq<T>)
    ensures |r| <= |s|
    ensures forall x :: x in r <==> x in s && p(x)
    ensures IsSubseq(r, s)
    decreases |s|
  {
    if s == [] then []
    else
      var init := s[..|s| - 1];
      var last := s[|s| - 1];
      assert s == init + [last];
      var rest := Filter(init, p);
      if p(last) then
        SubseqAppend(rest, init, last);
        rest + [last]
      else
        SubseqExtend(rest, init, last);
        rest
  }

  /** Keeping every element changes nothing. */
  lemma {:induction false} FilterAll<T(!new)>(s: seq<T>, p: T -> bool)
    requires forall x :: x in s ==> p(x)
    ensures Filter(s, p) == s
    decreases |s|
  {
    if s != [] {
      assert s == s[..|s| - 1] + [s[|s| - 1]];
      FilterAll(s[..|s| - 1], p);
    }
  }

  /** Filtering distributes over concatenation. */
  lemma {:induction false} FilterConcat<T(!new)>(a: seq<T>, b: seq<T>, p: T -> bool)
    ensures Filter(a + b, p) == Filter(a, p) + Filter(b, p)
    decreases |b|
  {
    if b == [] {
      assert a + b == a;
    } else {
      var init := b[..|b| - 1];
      assert (a + b)[..|a + b| - 1] == a + init;
      assert (a + b)[|a + b| - 1] == b[|b| - 1];
      FilterConcat(a, init, p);
    }
  }

  /** Filtering out every element leaves nothing. */
  lemma {:induction false} FilterNone<T(!new)>(s: seq<T>, p: T -> bool)
    requires forall x :: x in s ==> !p(x)
    ensures Filter(s, p) == []
    decreases |s|
  {
    if s != [] {
      assert s == s[..|s| - 1] + [s[|s| - 1]];
      FilterNone(s[..|s| - 1], p);
    }
  }

  /** A subsequence is never longer. */
  lemma {:induction false} SubseqLength<T>(a: seq<T>, b: seq<T>)
    requires IsSubseq(a, b)
    ensures |a| <= |b|
    decreases |b|
  {
    if a != [] {
      if a[0] == b[0] {
        SubseqLength(a[1..], b[1..]);
      } else {
        SubseqLength(a, b[1..]);
      }
    }
  }

  /** Ascending order of `key` along the sequence. */
  predicate SortedBy<T>(s: seq<T>, key: T -> real) {
    forall i, j :: 0 <= i < j < |s| ==> key(s[i]) <= key(s[j])
  }

  /** Places `x` in front of the first element whose key is not smaller:
      one step of a stable insertion sort. */
  function InsertBy<T>(x: T, s: seq<T>, key: T -> real): (r: seq<T>)
    ensures |r| == |s| + 1
    decreases |s|
  {
    if s == [] then [x]
    else if key(x) <= key(s[0]) then [x] + s
    else [s[0]] + InsertBy(x, s[1..], key)
  }

  /** Inserting adds exactly `x`, and the result starts with `x` or with the old head. */
  lemma {:induction false} InsertByMultiset<T>(x: T, s: seq<T>, key: T -> real)
    ensures multiset(InsertBy(x, s, key)) == multiset(s) + multiset{x}
    ensures InsertBy(x, s, key)[0] == x || (s != [] && InsertBy(x, s, key)[0] == s[0])
    decreases |s|
  {
    if s != [] && key(x) > key(s[0]) {
      InsertByMultiset(x, s[1..], key);
      assert s == [s[0]] + s[1..];
    }
  }

  lemma SortedCons<T>(a: T, t: seq<T>, key: T -> real)
    requires SortedBy(t, key)
    requires forall j :: 0 <= j < |t| ==> key(a) <= key(t[j])
    ensures SortedBy([a] + t, key)
  {
    var r := [a] + t;
    forall i, j | 0 <= i < j < |r| ensures key(r[i]) <= key(r[j]) {
      if i > 0 {
        assert r[i] == t[i - 1] && r[j] == t[j - 1];
      }
    }
  }

  /** Inserting adds exactly `x` and keeps a sorted sequence sorted. */
  lemma {:induction false} InsertBySorted<T>(x: T, s: seq<T>, key: T -> real)
    ensures multiset(InsertBy(x, s, key)) == multiset(s) + multiset{x}
    ensures SortedBy(s, key) ==> SortedBy(InsertBy(x, s, key), key)
    ensures InsertBy(x, s, key)[0] == x || (s != [] && InsertBy(x, s, key)[0] == s[0])
    decreases |s|
  {
    InsertByMultiset(x, s, key);
    if s != [] && SortedBy(s, key) {
      if key(x) > key(s[0]) {
        var rest := InsertBy(x, s[1..], key);
        assert SortedBy(s[1..], key);
        InsertBySorted(x, s[1..], key);
        forall j | 0 <= j < |rest| ensures key(s[0]) <= key(rest[j]) {
          assert rest[j] in multiset(rest);
          assert rest[j] == x || rest[j] in s[1..];
        }
        SortedCons(s[0], rest, key);
      } else {
        SortedCons(x, s, key);
      }
    }
  }

  /** The result of a stable sort ascending by `key` (ECMAScript's `Array.prototype.sort`
      with a comparator `key(a) - key(b)` is stable). */
  function SortBy<T>(s: seq<T>, key: T -> real): (r: seq<T>)
    ensures |r| == |s|
    ensures multiset(r) == multiset(s)
    ensures SortedBy(r, key)
    decreases |s|
  {
    if s == [] then []
    else
      assert s == [s[0]] + s[1..];
      InsertBySorted(s[0], SortBy(s[1..], key), key);
      InsertBy(s[0], SortBy(s[1..], key), key)
  }

  /** The elements whose key is exactly `k`, in order: the tie class of `k`. */
  function TieClass<T>(s: seq<T>, key: T -> real, k: real): seq<T>
    decreases |s|
  {
    if s == [] then []
    else (if key(s[0]) == k then [s[0]] else []) + TieClass(s[1..], key, k)
  }

  lemma TieClassCons<T>(a: T, t: seq<T>, key: T -> real, k: real)
    ensures TieClass([a] + t, key, k) == (if key(a) == k then [a] else []) + TieClass(t, key, k)
  {
    assert ([a] + t)[1..] == t;
  }

  lemma {:induction false} TieClassInsert<T>(x: T, s: seq<T>, key: T -> real, k: real)
    ensures TieClass(InsertBy(x, s, key), key, k)
         == (if key(x) == k then [x] else []) + TieClass(s, key, k)
    decreases |s|
  {
    if s == [] {
      TieClassCons(x, [], key, k);
    } else if key(x) <= key(s[0]) {
      TieClassCons(x, s, key, k);
    } else {
      var tail := InsertBy(x, s[1..], key);
      var rest := TieClass(s[1..], key, k);
      assert InsertBy(x, s, key) == [s[0]] + tail;
      TieClassCons(s[0], tail, key, k);
      TieClassInsert(x, s[1..], key, k);
      TieClassCons(s[0], s[1..], key, k);
      assert [s[0]] + s[1..] == s;
      if key(x) == k {
        assert TieClass(InsertBy(x, s, key), key, k) == [x] + rest;
        assert TieClass(s, key, k) == rest;
      } else {
        assert TieClass(tail, key, k) == rest;
      }
    }
  }

  /** Stability: sorting keeps the relative order of elements with equal keys. */
  lemma {:induction false} SortByStable<T>(s: seq<T>, key: T -> real, k: real)
    ensures TieClass(SortBy(s, key), key, k) == TieClass(s, key, k)
    decreases |s|
  {
    if s != [] {
      SortByStable(s[1..], key, k);
      TieClassInsert(s[0], SortBy(s[1..], key), key, k);
    }
  }

  lemma {:induction false} TieClassWhole<T>(s: seq<T>, key: T -> real, k: real)
    requires forall i :: 0 <= i < |s| ==> key(s[i]) == k
    ensures TieClass(s, key, k) == s
    decreases |s|
  {
    if s != [] {
      TieClassWhole(s[1..], key, k);
      assert s == [s[0]] + s[1..];
    }
  }

  /** When every key is the same, a stable sort leaves the sequence as it is. */
  lemma SortByAllTied<T>(s: seq<T>, key: T -> real, k: real)
    requires forall i :: 0 <= i < |s| ==> key(s[i]) == k
    ensures SortBy(s, key) == s
  {
    var r := SortBy(s, key);
    assert multiset(r) == multiset(s);
    forall i | 0 <= i < |r| ensures key(r[i]) == k {
      assert r[i] in multiset(r);
      assert r[i] in multiset(s);
    }
    SortByStable(s, key, k);
    TieClassWhole(s, key, k);
    TieClassWhole(r, key, k);
  }

  /** `Array.prototype.reverse`. */
  function Reverse<T>(s: seq<T>): (r: seq<T>)
    ensures |r| == |s|
    ensures forall i :: 0 <= i < |s| ==> r[i] == s[|s| - 1 - i]
    decreases |s|
  {
    if s == [] then [] else Reverse(s[1..]) + [s[0]]
  }

  lemma {:induction false} ReverseMultiset<T>(s: seq<T>)
    ensures multiset(Reverse(s)) == multiset(s)
    decreases |s|
  {
    if s != [] {
      ReverseMultiset(s[1..]);
      assert s == [s[0]] + s[1..];
    }
  }

  /** `Array.prototype.slice(0, n)`. */
  function Take<T>(s: seq<T>, n: nat): (r: seq<T>)
    ensures |r| == if |s| <= n then |s| else n
    ensures r == s[..|r|]
  {
    if |s| <= n then s else s[..n]
  }

  /** No element occurs twice. */
  predicate Distinct<T(==)>(s: seq<T>) {
    forall i, j :: 0 <= i < j < |s| ==> s[i] != s[j]
  }

  /** `Set.prototype.add` on a set kept as its insertion-ordered element list. */
  function AddNew<T(==,!new)>(s: seq<T>, x: T): (r: seq<T>)
    ensures Distinct(s) ==> Distinct(r)
    ensures forall y :: y in r <==> y in s || y == x
    ensures IsSubseq(s, r)
  {
    if x in s then
      SubseqReflexive(s);
      s
    else
      SubseqReflexive(s);
      SubseqExtend(s, s, x);
      s + [x]
  }

  /** Adding the elements of `xs` one by one, left to right. */
  function AddAll<T(==,!new)>(s: seq<T>, xs: seq<T>): (r: seq<T>)
    ensures Distinct(s) ==> Distinct(r)
    ensures forall y :: y in r <==> y in s || y in xs
    decreases |xs|
  {
    if xs == [] then s
    else
      var init := xs[..|xs| - 1];
      assert xs == init + [xs[|xs| - 1]];
      AddNew(AddAll(s, init), xs[|xs| - 1])
  }

  lemma {:induction false} AddAllConcat<T(!new)>(s: seq<T>, xs: seq<T>, ys: seq<T>)
    ensures AddAll(s, xs + ys) == AddAll(AddAll(s, xs), ys)
    decreases |ys|
  {
    if ys == [] {
      assert xs + ys == xs;
    } else {
      var init := ys[..|ys| - 1];
      assert (xs + ys)[..|xs + ys| - 1] == xs + init;
      AddAllConcat(s, xs, init);
    }
  }

  /** The first occurrences of `xs`, in order: `xs[i]` is kept exactly when it does not
      occur in `xs[..i]`. */
  function Dedup<T(==,!new)>(xs: seq<T>): (r: seq<T>)
    ensures Distinct(r)
    ensures forall y :: y in r <==> y in xs
    decreases |xs|
  {
    if xs == [] then []
    else
      var init := xs[..|xs| - 1];
      var x := xs[|xs| - 1];
      assert xs == init + [x];
      if x in init then Dedup(init) else Dedup(init) + [x]
  }

  /** The de-duplicated list of a prefix is a prefix of the de-duplicated list: an
      element never moves ahead of one that occurred before it. */
  lemma {:induction false} DedupPrefix<T(!new)>(xs: seq<T>, j: nat)
    requires j <= |xs|
    ensures var d := Dedup(xs[..j]);
      |d| <= |Dedup(xs)| && Dedup(xs)[..|d|] == d
    decreases |xs|
  {
    if j == |xs| {
      assert xs[..j] == xs;
    } else {
      var init := xs[..|xs| - 1];
      assert init[..j] == xs[..j];
      DedupPrefix(init, j);
      var d, di := Dedup(xs[..j]), Dedup(init);
      assert Dedup(xs)[..|di|] == di;
      assert Dedup(xs)[..|d|] == Dedup(xs)[..|di|][..|d|];
    }
  }

  /** A `Set` filled in turn from empty iterates in first-occurrence order. */
  lemma {:induction false} AddAllDedup<T(!new)>(xs: seq<T>)
    ensures AddAll([], xs) == Dedup(xs)
    decreases |xs|
  {
    if xs != [] {
      var init := xs[..|xs| - 1];
      AddAllDedup(init);
    }
  }
  /** A first occurrence `xs[j]` sits in the de-duplicated list right after the distinct
      elements met before it. */
  lemma DedupPosition<T(!new)>(xs: seq<T>, j: nat)
    requires j < |xs| && xs[j] !in xs[..j]
    ensures |Dedup(xs[..j])| < |Dedup(xs)| && Dedup(xs)[|Dedup(xs[..j])|] == xs[j]
  {
    var p := xs[..j + 1];
    assert p[..|p| - 1] == xs[..j];
    assert Dedup(p) == Dedup(xs[..j]) + [xs[j]];
    DedupPrefix(xs, j + 1);
  }

  /** Of two first occurrences, the earlier one comes first in the de-duplicated list. */
  lemma DedupOrder<T(!new)>(xs: seq<T>, i: nat, j: nat)
    requires i < j < |xs| && xs[i] !in xs[..i] && xs[j] !in xs[..j]
    ensures var pi, pj := |Dedup(xs[..i])|, |Dedup(xs[..j])|;
      pi < pj < |Dedup(xs)| && Dedup(xs)[pi] == xs[i] && Dedup(xs)[pj] == xs[j]
  {
    DedupPosition(xs, i);
    DedupPosition(xs, j);
    var p := xs[..i + 1];
    assert p[..|p| - 1] == xs[..i];
    assert xs[..j][..i + 1] == p;
    DedupPrefix(xs[..j], i + 1);
  }
}
