/** The table operations the source borrows from pandas and Python: row filters,
    drop_duplicates, the stable sorted(key=...), Series.mode() and groupby's sorted keys. */
module Collections {
  import opened Wrappers
  import opened Text

  // ---------------------------------------------------------------------------
  // Filters

  /** The elements of xs that satisfy p, in their order. */
  function Filter<T(==,!new)>(xs: seq<T>, p: T -> bool): (r: seq<T>)
    ensures |r| <= |xs|
  {
    if |xs| == 0 then [] else Filter(xs[..|xs| - 1], p) + (if p(xs[|xs| - 1]) then [xs[|xs| - 1]] else [])
  }

  /** The filter keeps exactly the elements that satisfy p. */
  lemma {:induction false} FilterMembership<T(!new)>(xs: seq<T>, p: T -> bool)
    ensures forall y :: y in Filter(xs, p) <==> y in xs && p(y)
  {
    if |xs| > 0 {
      var init := xs[..|xs| - 1];
      FilterMembership(init, p);
      assert xs == init + [xs[|xs| - 1]];
    }
  }

  lemma FilterAppend<T(!new)>(xs: seq<T>, ys: seq<T>, p: T -> bool)
    ensures Filter(xs + ys, p) == Filter(xs, p) + Filter(ys, p)
    decreases |ys|
  {
    if |ys| > 0 {
      assert (xs + ys)[..|xs + ys| - 1] == xs + ys[..|ys| - 1];
      FilterAppend(xs, ys[..|ys| - 1], p);
    } else {
      assert xs + ys == xs;
    }
  }

  lemma MultisetSnoc<T>(a: seq<T>, x: T)
    ensures multiset(a + [x]) == multiset(a) + multiset{x}
  {
  }

  lemma MultisetSplitLast<T>(xs: seq<T>)
    requires |xs| > 0
    ensures multiset(xs) == multiset(xs[..|xs| - 1]) + multiset{xs[|xs| - 1]}
  {
    assert xs == xs[..|xs| - 1] + [xs[|xs| - 1]];
  }

  /** Filtering by p and by its negation splits the elements between the two results. */
  lemma {:induction false} FilterComplement<T(!new)>(xs: seq<T>, p: T -> bool, q: T -> bool)
    requires forall i :: 0 <= i < |xs| ==> q(xs[i]) == !p(xs[i])
    ensures multiset(Filter(xs, p)) + multiset(Filter(xs, q)) == multiset(xs)
  {
    if |xs| > 0 {
      var init := xs[..|xs| - 1];
      var x := xs[|xs| - 1];
      assert forall i :: 0 <= i < |init| ==> init[i] == xs[i];
      FilterComplement(init, p, q);
      var fp, fq := Filter(init, p), Filter(init, q);
      MultisetSplitLast(xs);
      assert q(x) == !p(x);
      if p(x) {
        MultisetSnoc(fp, x);
        assert Filter(xs, p) == fp + [x];
        assert Filter(xs, q) == fq + [];
      } else {
        MultisetSnoc(fq, x);
        assert Filter(xs, p) == fp + [];
        assert Filter(xs, q) == fq + [x];
      }
    }
  }

  /** [f(x) for x in xs] */
  function MapSeq<T, U>(xs: seq<T>, f: T -> U): (r: seq<U>)
    ensures |r| == |xs| && forall i :: 0 <= i < |xs| ==> r[i] == f(xs[i])
  {
    seq(|xs|, i requires 0 <= i < |xs| => f(xs[i]))
  }

  lemma MapSeqPush<T, U>(xs: seq<T>, f: T -> U, i: int)
    requires 0 <= i < |xs|
    ensures MapSeq(xs[..i + 1], f) == MapSeq(xs[..i], f) + [f(xs[i])]
  {
  }

  lemma MapSeqMembership<T(!new), U(!new)>(xs: seq<T>, f: T -> U)
    ensures forall y :: y in MapSeq(xs, f) <==> exists x :: x in xs && f(x) == y
  {
    var r := MapSeq(xs, f);
    forall y ensures y in r <==> exists x :: x in xs && f(x) == y {
      if exists x :: x in xs && f(x) == y {
        var x :| x in xs && f(x) == y;
        var i :| 0 <= i < |xs| && xs[i] == x;
        assert r[i] == y;
      }
    }
  }

  /** The values f gives to the elements it keeps, in order. */
  function FilterMap<T(!new), U(!new)>(xs: seq<T>, f: T -> Option<U>): (r: seq<U>)
    ensures forall y :: y in r <==> exists x :: x in xs && f(x) == Some(y)
  {
    if |xs| == 0 then []
    else
      var x := xs[|xs| - 1];
      assert xs == xs[..|xs| - 1] + [x];
      FilterMap(xs[..|xs| - 1], f) + (if f(x).Some? then [f(x).value] else [])
  }

  lemma FilterMapAppend<T(!new), U(!new)>(xs: seq<T>, ys: seq<T>, f: T -> Option<U>)
    ensures FilterMap(xs + ys, f) == FilterMap(xs, f) + FilterMap(ys, f)
    decreases |ys|
  {
    if |ys| > 0 {
      assert (xs + ys)[..|xs + ys| - 1] == xs + ys[..|ys| - 1];
      FilterMapAppend(xs, ys[..|ys| - 1], f);
    } else {
      assert xs + ys == xs;
    }
  }

  // ---------------------------------------------------------------------------
  // drop_duplicates

  function KeySet<T(==,!new), K>(xs: seq<T>, key: T -> K): set<K> {
    set x | x in xs :: key(x)
  }

  lemma KeyWitness<T(!new), K>(xs: seq<T>, key: T -> K, k: K)
    ensures k in KeySet(xs, key) <==> exists x :: x in xs && key(x) == k
  {
  }

  lemma KeyInMapSeq<T(!new), K(!new)>(xs: seq<T>, key: T -> K, k: K)
    ensures k in KeySet(xs, key) <==> k in MapSeq(xs, key)
  {
    MapSeqMembership(xs, key);
  }

  /** The first element of xs whose key is k. */
  function FirstWith<T(==,!new), K(==)>(xs: seq<T>, key: T -> K, k: K): (r: T)
    requires k in KeySet(xs, key)
    ensures r in xs && key(r) == k
  {
    var init := xs[..|xs| - 1];
    if k in KeySet(init, key) then FirstWith(init, key, k) else xs[|xs| - 1]
  }

  /** drop_duplicates(subset=key): the first element of each key, in input order. */
  function DedupBy<T(==,!new), K(==)>(xs: seq<T>, key: T -> K): (r: seq<T>)
    ensures forall y :: y in r ==> y in xs
    ensures forall i, j :: 0 <= i < j < |r| ==> key(r[i]) != key(r[j])
    ensures KeySet(r, key) == KeySet(xs, key)
    ensures forall y :: y in r ==> key(y) in KeySet(xs, key) && FirstWith(xs, key, key(y)) == y
  {
    if |xs| == 0 then []
    else
      var init := xs[..|xs| - 1];
      var r0 := DedupBy(init, key);
      var x := xs[|xs| - 1];
      assert xs == init + [x];
      KeySetAppend(init, x, key);
      KeySetAppend(r0, x, key);
      if key(x) in KeySet(r0, key) then r0 else r0 + [x]
  }

  lemma KeySetAppend<T(!new), K>(xs: seq<T>, x: T, key: T -> K)
    ensures KeySet(xs + [x], key) == KeySet(xs, key) + {key(x)}
  {
    assert forall y :: y in xs + [x] <==> y in xs || y == x;
  }

  function Identity<T>(x: T): T { x }

  /** drop_duplicates() on whole rows: exact duplicates collapse to their first copy. */
  function Dedup<T(==,!new)>(xs: seq<T>): (r: seq<T>)
    ensures forall y :: y in r <==> y in xs
    ensures forall i, j :: 0 <= i < j < |r| ==> r[i] != r[j]
  {
    var r := DedupBy(xs, Identity);
    assert forall y :: y in xs ==> y in r by {
      forall y | y in xs ensures y in r {
        assert Identity(y) in KeySet(xs, Identity);
      }
    }
    r
  }

  // ---------------------------------------------------------------------------
  // sorted(xs, key=...) : a stable sort on a text key

  ghost predicate SortedBy<T>(s: seq<T>, key: T -> string) {
    forall i, j :: 0 <= i < j < |s| ==> StrLe(key(s[i]), key(s[j]))
  }

  /** Puts x before the first element whose key is not smaller than x's. */
  function InsertBy<T>(x: T, s: seq<T>, key: T -> string): (r: seq<T>)
    ensures multiset(r) == multiset(s) + multiset{x}
  {
    if |s| == 0 then [x]
    else if StrLe(key(x), key(s[0])) then [x] + s
    else
      assert s == [s[0]] + s[1..];
      [s[0]] + InsertBy(x, s[1..], key)
  }

  lemma ConsSorted<T>(h: T, t: seq<T>, key: T -> string)
    requires SortedBy(t, key) && forall j :: 0 <= j < |t| ==> StrLe(key(h), key(t[j]))
    ensures SortedBy([h] + t, key)
  {
    var r := [h] + t;
    forall i, j | 0 <= i < j < |r| ensures StrLe(key(r[i]), key(r[j])) {
      assert r[j] == t[j - 1];
      if i > 0 { assert r[i] == t[i - 1]; }
    }
  }

  /** The head of a sorted sequence is below all of it. */
  lemma SortedHeadBelow<T>(s: seq<T>, key: T -> string, lo: string)
    requires |s| > 0 && SortedBy(s, key) && StrLe(lo, key(s[0]))
    ensures forall j :: 0 <= j < |s| ==> StrLe(lo, key(s[j]))
  {
    forall j | 0 < j < |s| ensures StrLe(lo, key(s[j])) {
      StrLeTransitive(lo, key(s[0]), key(s[j]));
    }
  }

  /** Whatever bound holds for x and for every element of s holds for every element of the
      insertion. */
  lemma InsertByAbove<T>(x: T, s: seq<T>, key: T -> string, lo: string)
    requires StrLe(lo, key(x)) && forall j :: 0 <= j < |s| ==> StrLe(lo, key(s[j]))
    ensures forall j :: 0 <= j < |InsertBy(x, s, key)| ==> StrLe(lo, key(InsertBy(x, s, key)[j]))
  {
    var t := InsertBy(x, s, key);
    forall j | 0 <= j < |t| ensures StrLe(lo, key(t[j])) {
      assert t[j] in multiset(t);
      assert t[j] == x || t[j] in multiset(s);
      if t[j] != x {
        var k :| 0 <= k < |s| && s[k] == t[j];
      }
    }
  }

  lemma {:induction false} InsertBySorted<T>(x: T, s: seq<T>, key: T -> string)
    requires SortedBy(s, key)
    ensures SortedBy(InsertBy(x, s, key), key)
  {
    if |s| == 0 {
    } else if StrLe(key(x), key(s[0])) {
      SortedHeadBelow(s, key, key(x));
      ConsSorted(x, s, key);
    } else {
      StrLeTotal(key(x), key(s[0]));
      SortedByTail(s, key);
      InsertBySorted(x, s[1..], key);
      SortedHeadBelow(s, key, key(s[0]));
      assert forall j :: 0 <= j < |s[1..]| ==> s[1..][j] == s[j + 1];
      InsertByAbove(x, s[1..], key, key(s[0]));
      ConsSorted(s[0], InsertBy(x, s[1..], key), key);
    }
  }

  /** The elements of s whose key is k, in order. */
  function WithKey<T>(s: seq<T>, key: T -> string, k: string): seq<T> {
    if |s| == 0 then [] else (if key(s[0]) == k then [s[0]] else []) + WithKey(s[1..], key, k)
  }

  lemma SortedByTail<T>(s: seq<T>, key: T -> string)
    requires |s| > 0 && SortedBy(s, key)
    ensures SortedBy(s[1..], key)
  {
    forall i, j | 0 <= i < j < |s[1..]| ensures StrLe(key(s[1..][i]), key(s[1..][j])) {
      assert s[1..][i] == s[i + 1] && s[1..][j] == s[j + 1];
    }
  }

  lemma WithKeyCons<T>(x: T, s: seq<T>, key: T -> string, k: string)
    ensures WithKey([x] + s, key, k) == (if key(x) == k then [x] else []) + WithKey(s, key, k)
  {
    assert ([x] + s)[0] == x && ([x] + s)[1..] == s;
  }

  lemma PrefixesCommute<T>(a: seq<T>, b: seq<T>, rest: seq<T>)
    requires a == [] || b == []
    ensures b + (a + rest) == a + (b + rest)
  {
  }

  lemma {:induction false} InsertByWithKey<T>(x: T, s: seq<T>, key: T -> string, k: string)
    ensures WithKey(InsertBy(x, s, key), key, k)
         == (if key(x) == k then [x] else []) + WithKey(s, key, k)
  {
    if |s| == 0 {
      WithKeyCons(x, s, key, k);
    } else if StrLe(key(x), key(s[0])) {
      WithKeyCons(x, s, key, k);
    } else {
      InsertByWithKey(x, s[1..], key, k);
      var t := InsertBy(x, s[1..], key);
      var a := if key(x) == k then [x] else [];
      var b := if key(s[0]) == k then [s[0]] else [];
      var rest := WithKey(s[1..], key, k);
      assert InsertBy(x, s, key) == [s[0]] + t;
      WithKeyCons(s[0], t, key, k);
      assert [s[0]] + s[1..] == s;
      WithKeyCons(s[0], s[1..], key, k);
      assert key(x) == k ==> key(s[0]) != k;
      PrefixesCommute(a, b, rest);
    }
  }

  /** Python's sorted(xs, key=key): insertion sort that keeps equal keys in input order. */
  function SortBy<T>(xs: seq<T>, key: T -> string): (r: seq<T>)
    ensures multiset(r) == multiset(xs) && |r| == |xs|
    ensures SortedBy(r, key)
  {
    if |xs| == 0 then []
    else
      var rest := SortBy(xs[1..], key);
      InsertBySorted(xs[0], rest, key);
      assert xs == [xs[0]] + xs[1..];
      InsertBy(xs[0], rest, key)
  }

  /** The sort is stable: the elements sharing any one key come out in their input order. */
  lemma {:induction false} SortByStable<T>(xs: seq<T>, key: T -> string, k: string)
    ensures WithKey(SortBy(xs, key), key, k) == WithKey(xs, key, k)
  {
    if |xs| > 0 {
      SortByStable(xs[1..], key, k);
      InsertByWithKey(xs[0], SortBy(xs[1..], key), key, k);
    }
  }

  // ---------------------------------------------------------------------------
  // Series.mode().iloc[0]: the most frequent value, the smallest one among ties

  ghost predicate StrictTotalOrder<T(!new)>(lt: (T, T) -> bool) {
    && (forall a :: !lt(a, a))
    && (forall a, b, c :: lt(a, b) && lt(b, c) ==> lt(a, c))
    && (forall a, b :: a != b ==> lt(a, b) || lt(b, a))
  }

  /** The candidate that occurs most often in xs; among equally frequent candidates the one that
      lt puts first. */
  function MostFrequent<T(==,!new)>(xs: seq<T>, cands: seq<T>, lt: (T, T) -> bool): (r: T)
    requires |cands| > 0
    ensures r in cands
    ensures forall y :: y in cands ==> multiset(xs)[y] <= multiset(xs)[r]
  {
    if |cands| == 1 then cands[0]
    else
      var b := MostFrequent(xs, cands[1..], lt);
      assert cands == [cands[0]] + cands[1..];
      if multiset(xs)[cands[0]] > multiset(xs)[b]
         || (multiset(xs)[cands[0]] == multiset(xs)[b] && lt(cands[0], b))
      then cands[0] else b
  }

  lemma {:induction false} MostFrequentTieBreak<T(!new)>(xs: seq<T>, cands: seq<T>, lt: (T, T) -> bool)
    requires |cands| > 0 && StrictTotalOrder(lt)
    ensures var r := MostFrequent(xs, cands, lt);
            forall y :: y in cands && y != r && multiset(xs)[y] == multiset(xs)[r] ==> lt(r, y)
  {
    if |cands| > 1 {
      MostFrequentTieBreak(xs, cands[1..], lt);
      assert cands == [cands[0]] + cands[1..];
    }
  }

  /** The mode of a non-empty sequence as pandas returns it first: the most frequent value, and
      the least value under lt among the equally most frequent ones. */
  function Mode<T(==,!new)>(xs: seq<T>, lt: (T, T) -> bool): (r: T)
    requires |xs| > 0
    ensures r in xs
  {
    MostFrequent(xs, xs, lt)
  }

  lemma ModeIsLeastAmongMostFrequent<T(!new)>(xs: seq<T>, lt: (T, T) -> bool, y: T)
    requires |xs| > 0 && StrictTotalOrder(lt)
    requires y in xs && y != Mode(xs, lt) && multiset(xs)[y] == multiset(xs)[Mode(xs, lt)]
    ensures lt(Mode(xs, lt), y)
  {
    MostFrequentTieBreak(xs, xs, lt);
  }

  /** What pandas' Series.mode().iloc[0] promises of m: a value of xs, none more frequent, and
      below every other value as frequent. */
  ghost predicate IsPandasMode<T(!new)>(xs: seq<T>, m: T, lt: (T, T) -> bool) {
    && m in xs
    && (forall y :: y in xs ==> multiset(xs)[y] <= multiset(xs)[m])
    && (forall y :: y in xs && y != m && multiset(xs)[y] == multiset(xs)[m] ==> lt(m, y))
  }

  lemma ModeIsPandasMode<T(!new)>(xs: seq<T>, lt: (T, T) -> bool)
    requires |xs| > 0 && StrictTotalOrder(lt)
    ensures IsPandasMode(xs, Mode(xs, lt), lt)
  {
    MostFrequentTieBreak(xs, xs, lt);
  }

  predicate IntLt(a: int, b: int) { a < b }

  lemma IntLtIsStrictTotalOrder()
    ensures StrictTotalOrder(IntLt)
  {
  }

  lemma StrLtIsStrictTotalOrder()
    ensures StrictTotalOrder(StrLt)
  {
    forall a: string ensures !StrLt(a, a) { StrLtIrreflexive(a); }
    forall a: string, b: string, c: string | StrLt(a, b) && StrLt(b, c) ensures StrLt(a, c) {
      StrLtTransitive(a, b, c);
    }
    forall a: string, b: string | a != b ensures StrLt(a, b) || StrLt(b, a) { StrLtTotal(a, b); }
  }

  // ---------------------------------------------------------------------------
  // groupby keys: distinct integers in ascending order

  ghost predicate StrictlyIncreasing(s: seq<int>) {
    forall i, j :: 0 <= i < j < |s| ==> s[i] < s[j]
  }

  lemma ConsIncreasing(h: int, t: seq<int>)
    requires StrictlyIncreasing(t) && forall y :: y in t ==> h < y
    ensures StrictlyIncreasing([h] + t)
  {
    var r := [h] + t;
    forall i, j | 0 <= i < j < |r| ensures r[i] < r[j] {
      assert r[j] == t[j - 1];
      if i == 0 { assert t[j - 1] in t; } else { assert r[i] == t[i - 1]; }
    }
  }

  function InsertInt(x: int, s: seq<int>): (r: seq<int>)
    requires StrictlyIncreasing(s)
    ensures StrictlyIncreasing(r)
    ensures forall y :: y in r <==> y == x || y in s
  {
    if |s| == 0 then [x]
    else if x == s[0] then s
    else if x < s[0] then [x] + s
    else
      var t := InsertInt(x, s[1..]);
      assert forall y :: y in s[1..] ==> s[0] < y by {
        forall y | y in s[1..] ensures s[0] < y {
          var k :| 0 <= k < |s[1..]| && s[1..][k] == y;
          assert s[k + 1] == y;
        }
      }
      ConsIncreasing(s[0], t);
      [s[0]] + t
  }

  /** The distinct values of xs in ascending order. */
  function SortedDistinct(xs: seq<int>): (r: seq<int>)
    ensures StrictlyIncreasing(r)
    ensures forall y :: y in r <==> y in xs
  {
    if |xs| == 0 then [] else InsertInt(xs[|xs| - 1], SortedDistinct(xs[..|xs| - 1]))
  }

  // ---------------------------------------------------------------------------
  // dict(...) and Series.to_dict(): later entries overwrite earlier ones

  /** The dictionary built from xs, key by key, in order: a later element replaces the value an
      earlier one with the same key left. */
  function ToDict<T, K, V>(xs: seq<T>, key: T -> K, val: T -> V): map<K, V> {
    if |xs| == 0 then map[]
    else ToDict(xs[..|xs| - 1], key, val)[key(xs[|xs| - 1]) := val(xs[|xs| - 1])]
  }

  /** The keys of the dictionary are the keys of the elements. */
  lemma {:induction false} ToDictKeys<T(!new), K(!new), V>(xs: seq<T>, key: T -> K, val: T -> V)
    ensures ToDict(xs, key, val).Keys == KeySet(xs, key)
  {
    if |xs| > 0 {
      var init := xs[..|xs| - 1];
      ToDictKeys(init, key, val);
      KeySetAppend(init, xs[|xs| - 1], key);
      assert xs == init + [xs[|xs| - 1]];
    }
  }

  /** One step of a loop that fills a dictionary from the elements satisfying p. */
  lemma ToDictFilterPush<T(!new), K, V>(xs: seq<T>, p: T -> bool, key: T -> K, val: T -> V, i: int)
    requires 0 <= i < |xs|
    ensures ToDict(Filter(xs[..i + 1], p), key, val) ==
            if p(xs[i]) then ToDict(Filter(xs[..i], p), key, val)[key(xs[i]) := val(xs[i])]
            else ToDict(Filter(xs[..i], p), key, val)
  {
    var ys := xs[..i + 1];
    assert ys[..|ys| - 1] == xs[..i] && ys[|ys| - 1] == xs[i];
    var f := Filter(xs[..i], p);
    if p(xs[i]) {
      var zs := f + [xs[i]];
      assert Filter(ys, p) == zs;
      assert zs[..|zs| - 1] == f;
    } else {
      assert Filter(ys, p) == f + [];
      assert f + [] == f;
    }
  }

  /** An element whose key no other element shares is the one whose value the key holds. */
  lemma {:induction false} ToDictUnique<T(!new), K(!new), V>(xs: seq<T>, key: T -> K, val: T -> V, x: T)
    requires x in xs
    requires forall y :: y in xs && key(y) == key(x) ==> y == x
    ensures key(x) in ToDict(xs, key, val) && ToDict(xs, key, val)[key(x)] == val(x)
  {
    var init := xs[..|xs| - 1];
    var last := xs[|xs| - 1];
    assert xs == init + [last];
    if last != x {
      assert x in init;
      ToDictUnique(init, key, val, x);
    }
  }

  // ---------------------------------------------------------------------------
  // Distinct keys survive a permutation

  lemma MultisetTwice<T>(s: seq<T>, i: int, j: int)
    requires 0 <= i < j < |s| && s[i] == s[j]
    ensures multiset(s)[s[i]] >= 2
  {
    assert s == s[..j] + [s[j]] + s[j + 1..];
    assert s[..j][i] == s[i];
  }

  lemma {:induction false} MultisetOnce<T>(s: seq<T>, x: T)
    requires forall i, j :: 0 <= i < j < |s| ==> s[i] != s[j]
    ensures multiset(s)[x] <= 1
  {
    if |s| > 0 {
      var t := s[1..];
      assert s == [s[0]] + t;
      MultisetOnce(t, x);
      if s[0] == x {
        forall k | 0 <= k < |t| ensures t[k] != x { assert t[k] == s[k + 1]; }
        assert x !in t;
      }
    }
  }

  /** If no two elements of a share a key, no two elements of any permutation of a do. */
  lemma DistinctKeysPermuted<T, K>(a: seq<T>, b: seq<T>, key: T -> K)
    requires multiset(a) == multiset(b)
    requires forall i, j :: 0 <= i < j < |a| ==> key(a[i]) != key(a[j])
    ensures forall i, j :: 0 <= i < j < |b| ==> key(b[i]) != key(b[j])
  {
    forall i, j | 0 <= i < j < |b| ensures key(b[i]) != key(b[j]) {
      assert b[i] in multiset(b) && b[j] in multiset(b);
      var p :| 0 <= p < |a| && a[p] == b[i];
      var q :| 0 <= q < |a| && a[q] == b[j];
      if b[i] == b[j] {
        MultisetTwice(b, i, j);
        MultisetOnce(a, b[i]);
      } else {
        assert p != q;
      }
    }
  }
}
