/**
 * Sequence operations shared by the reporting layer, the lead list and the dashboard:
 * filtering, grouping by a key (an aggregation `$group`), sorting by a count
 * (an aggregation `$sort` descending), and keeping a prefix (`$limit`).
 */
module Collections {

  /** The elements of xs that satisfy p, in their original order. */
  function Filter<T>(xs: seq<T>, p: T -> bool): (r: seq<T>)
    ensures |r| <= |xs|
    ensures forall i :: 0 <= i < |r| ==> p(r[i])
    ensures forall i :: 0 <= i < |r| ==> r[i] in xs
    ensures forall i :: 0 <= i < |xs| && p(xs[i]) ==> xs[i] in r
  {
    if xs == [] then []
    else (if p(xs[0]) then [xs[0]] else []) + Filter(xs[1..], p)
  }

  /** Number of elements of xs that satisfy p (a `countDocuments` with a filter). */
  function Count<T>(xs: seq<T>, p: T -> bool): nat {
    |Filter(xs, p)|
  }

  lemma {:induction false} CountNone<T>(xs: seq<T>, p: T -> bool)
    requires forall i :: 0 <= i < |xs| ==> !p(xs[i])
    ensures Count(xs, p) == 0
    decreases |xs|
  {
    if xs != [] { CountNone(xs[1..], p); }
  }

  /** a is an order-preserving subsequence of b. */
  ghost predicate SubsequenceOf<T>(a: seq<T>, b: seq<T>)
    decreases |b|
  {
    if a == [] then true
    else if b == [] then false
    else if a[0] == b[0] then SubsequenceOf(a[1..], b[1..])
    else SubsequenceOf(a, b[1..])
  }

  lemma {:induction false} FilterIsSubsequence<T>(xs: seq<T>, p: T -> bool)
    ensures SubsequenceOf(Filter(xs, p), xs)
    decreases |xs|
  {
    if xs != [] {
      FilterIsSubsequence(xs[1..], p);
      var rest := Filter(xs[1..], p);
      if p(xs[0]) {
        assert Filter(xs, p) == [xs[0]] + rest;
        assert ([xs[0]] + rest)[1..] == rest;
      } else {
        assert Filter(xs, p) == rest;
        SubsequenceSkip(rest, xs[0], xs[1..]);
      }
    }
  }

  lemma {:induction false} SubsequenceSkip<T>(a: seq<T>, y: T, b: seq<T>)
    requires SubsequenceOf(a, b)
    ensures SubsequenceOf(a, [y] + b)
    decreases |b|, 1
  {
    if a != [] && a[0] == y {
      // Matching y here is one way; the greedy definition takes it.
      assert ([y] + b)[1..] == b;
      SubsequenceTail(a, b);
    } else {
      assert ([y] + b)[1..] == b;
    }
  }

  lemma {:induction false} SubsequenceTail<T>(a: seq<T>, b: seq<T>)
    requires a != [] && SubsequenceOf(a, b)
    ensures SubsequenceOf(a[1..], b)
    decreases |b|, 0
  {
    assert b != [];
    if a[0] == b[0] {
      if a[1..] != [] {
        assert SubsequenceOf(a[1..], b[1..]);
        SubsequenceSkip(a[1..], b[0], b[1..]);
        assert [b[0]] + b[1..] == b;
      }
    } else {
      SubsequenceTail(a, b[1..]);
      SubsequenceSkip(a[1..], b[0], b[1..]);
      assert [b[0]] + b[1..] == b;
    }
  }

  // ---------------------------------------------------------------------------
  // Grouping

  /** One output document of a `$group` stage: the group key and the input documents in it. */
  datatype Bucket<K, T> = Bucket(key: K, members: seq<T>)

  /** The elements of xs whose key is k, in their original order. */
  function Select<T, K(==)>(xs: seq<T>, key: T -> K, k: K): (r: seq<T>)
    ensures |r| <= |xs|
    ensures forall i :: 0 <= i < |r| ==> key(r[i]) == k
  {
    if xs == [] then []
    else (if key(xs[0]) == k then [xs[0]] else []) + Select(xs[1..], key, k)
  }

  /** Some bucket of bs has key k. */
  ghost predicate HasKey<K, T>(bs: seq<Bucket<K, T>>, k: K) {
    exists i :: 0 <= i < |bs| && bs[i].key == k
  }

  /** bs is a grouping of xs by key: one bucket per distinct key, holding exactly the elements with that key. */
  ghost predicate IsGrouping<T, K>(bs: seq<Bucket<K, T>>, xs: seq<T>, key: T -> K) {
    && (forall i, j :: 0 <= i < j < |bs| ==> bs[i].key != bs[j].key)
    && (forall i :: 0 <= i < |bs| ==> bs[i].members == Select(xs, key, bs[i].key) && bs[i].members != [])
    && (forall n :: 0 <= n < |xs| ==> HasKey(bs, key(xs[n])))
  }

  /** Index of the bucket with key k, or |bs| when there is none. */
  function FindKey<T, K(==)>(bs: seq<Bucket<K, T>>, k: K): (i: nat)
    ensures i <= |bs|
    ensures i < |bs| ==> bs[i].key == k
    ensures forall j :: 0 <= j < i ==> bs[j].key != k
  {
    if bs == [] then 0
    else if bs[0].key == k then 0
    else 1 + FindKey(bs[1..], k)
  }

  /** Adds x, which comes before every element already grouped, to its bucket. */
  function AddFront<T, K(==)>(x: T, bs: seq<Bucket<K, T>>, key: T -> K): seq<Bucket<K, T>> {
    var i := FindKey(bs, key(x));
    if i < |bs| then bs[i := Bucket(key(x), [x] + bs[i].members)]
    else bs + [Bucket(key(x), [x])]
  }

  lemma AddFrontGroups<T, K>(x: T, xs: seq<T>, bs: seq<Bucket<K, T>>, key: T -> K)
    requires IsGrouping(bs, xs, key)
    ensures IsGrouping(AddFront(x, bs, key), [x] + xs, key)
    ensures TotalSize(AddFront(x, bs, key)) == TotalSize(bs) + 1
  {
    var ys := [x] + xs;
    assert ys[1..] == xs;
    var i := FindKey(bs, key(x));
    var r := AddFront(x, bs, key);
    forall j | 0 <= j < |r|
      ensures r[j].members == Select(ys, key, r[j].key) && r[j].members != []
    {
      var k := r[j].key;
      assert Select(ys, key, k) == (if key(x) == k then [x] else []) + Select(xs, key, k);
      if j == |bs| {
        forall n | 0 <= n < |xs| ensures key(xs[n]) != k {
          var i' :| 0 <= i' < |bs| && bs[i'].key == key(xs[n]);
        }
        SelectNone(xs, key, k);
      }
    }
    forall n | 0 <= n < |ys| ensures HasKey(r, key(ys[n])) {
      var y := ys[n];
      if n == 0 {
        if i < |bs| { assert r[i].key == key(x); } else { assert r[|bs|].key == key(x); }
      } else {
        assert y == xs[n - 1];
        var j :| 0 <= j < |bs| && bs[j].key == key(y);
        assert r[j].key == key(y);
      }
    }
    if i < |bs| {
      TotalSizeUpdate(bs, i, Bucket(key(x), [x] + bs[i].members));
    } else {
      TotalSizeAppend(bs, [Bucket(key(x), [x])]);
    }
  }

  /** The `$group` stage: xs grouped by key. */
  function GroupBy<T, K(==)>(xs: seq<T>, key: T -> K): (r: seq<Bucket<K, T>>)
    ensures IsGrouping(r, xs, key)
    ensures TotalSize(r) == |xs|
  {
    if xs == [] then []
    else
      var rest := GroupBy(xs[1..], key);
      AddFrontGroups(xs[0], xs[1..], rest, key);
      assert [xs[0]] + xs[1..] == xs;
      AddFront(xs[0], rest, key)
  }

  /** Sum of the bucket sizes. */
  function TotalSize<K(==), T>(bs: seq<Bucket<K, T>>): nat {
    if bs == [] then 0 else |bs[0].members| + TotalSize(bs[1..])
  }

  lemma {:induction false} TotalSizeAppend<K, T>(a: seq<Bucket<K, T>>, b: seq<Bucket<K, T>>)
    ensures TotalSize(a + b) == TotalSize(a) + TotalSize(b)
    decreases |a|
  {
    if a == [] {
      assert a + b == b;
    } else {
      assert (a + b)[1..] == a[1..] + b;
      TotalSizeAppend(a[1..], b);
    }
  }

  lemma {:induction false} TotalSizeUpdate<K, T>(bs: seq<Bucket<K, T>>, i: nat, b: Bucket<K, T>)
    requires i < |bs|
    ensures TotalSize(bs[i := b]) == TotalSize(bs) - |bs[i].members| + |b.members|
    decreases |bs|
  {
    if i > 0 {
      assert bs[i := b][1..] == bs[1..][i - 1 := b];
      TotalSizeUpdate(bs[1..], i - 1, b);
    }
  }

  /** Number of distinct keys among xs (a `$group` on key followed by a count). */
  function DistinctCount<T, K(==)>(xs: seq<T>, key: T -> K): (n: nat)
    ensures n <= |xs|
    ensures n == 0 <==> xs == []
  {
    var g := GroupBy(xs, key);
    TotalSizeBound(g);
    |g|
  }

  /** Every bucket holds at least one member, so there are no more buckets than members. */
  lemma {:induction false} TotalSizeBound<K, T>(bs: seq<Bucket<K, T>>)
    requires forall i :: 0 <= i < |bs| ==> bs[i].members != []
    ensures |bs| <= TotalSize(bs)
    decreases |bs|
  {
    if bs != [] { TotalSizeBound(bs[1..]); }
  }

  /** The keys of the elements of xs. */
  function KeySet<T, K>(xs: seq<T>, key: T -> K): set<K> {
    set n | 0 <= n < |xs| :: key(xs[n])
  }

  /** The distinct count is the size of the set of keys. */
  lemma DistinctCountIsKeySetSize<T, K>(xs: seq<T>, key: T -> K)
    ensures DistinctCount(xs, key) == |KeySet(xs, key)|
  {
    var g := GroupBy(xs, key);
    var ks := seq(|g|, i requires 0 <= i < |g| => g[i].key);
    assert forall i, j :: 0 <= i < j < |ks| ==> ks[i] != ks[j];
    DistinctSeqCard(ks);
    var s1 := set k | k in ks;
    var s2 := KeySet(xs, key);
    forall k | k in s1 ensures k in s2 {
      var i :| 0 <= i < |ks| && ks[i] == k;
      assert g[i].members != [] && g[i].members == Select(xs, key, k);
      var m := g[i].members[0];
      SelectMember(xs, key, k, m);
      var n :| 0 <= n < |xs| && xs[n] == m;
      assert key(xs[n]) == k;
    }
    forall k | k in s2 ensures k in s1 {
      var n :| 0 <= n < |xs| && key(xs[n]) == k;
      var i :| 0 <= i < |g| && g[i].key == key(xs[n]);
      assert ks[i] == k;
    }
    assert s1 == s2;
  }

  lemma {:induction false} SelectNone<T, K>(xs: seq<T>, key: T -> K, k: K)
    requires forall n :: 0 <= n < |xs| ==> key(xs[n]) != k
    ensures Select(xs, key, k) == []
    decreases |xs|
  {
    if xs != [] { SelectNone(xs[1..], key, k); }
  }

  lemma {:induction false} SelectMember<T, K>(xs: seq<T>, key: T -> K, k: K, m: T)
    requires m in Select(xs, key, k)
    ensures m in xs && key(m) == k
    decreases |xs|
  {
    if xs != [] && m != xs[0] {
      SelectMember(xs[1..], key, k, m);
    }
  }

  /** A sequence without repetitions has as many elements as its set. */
  lemma {:induction false} DistinctSeqCard<K>(s: seq<K>)
    requires forall i, j :: 0 <= i < j < |s| ==> s[i] != s[j]
    ensures |set k | k in s| == |s|
    decreases |s|
  {
    if s != [] {
      DistinctSeqCard(s[1..]);
      assert (set k | k in s) == (set k | k in s[1..]) + {s[0]};
      assert s[0] !in s[1..];
    }
  }

  // ---------------------------------------------------------------------------
  // Sorting and limiting

  /** Ordered non-increasing by key. */
  ghost predicate SortedDesc<T>(s: seq<T>, key: T -> int) {
    forall i, j :: 0 <= i < j < |s| ==> key(s[i]) >= key(s[j])
  }

  function InsertDesc<T>(x: T, s: seq<T>, key: T -> int): (r: seq<T>)
    requires SortedDesc(s, key)
    ensures SortedDesc(r, key)
    ensures multiset(r) == multiset(s) + multiset{x}
  {
    if s == [] || key(x) >= key(s[0]) then
      ConsSorted(x, s, key);
      [x] + s
    else
      var rest := InsertDesc(x, s[1..], key);
      assert s == [s[0]] + s[1..];
      forall j | 0 <= j < |rest| ensures key(rest[j]) <= key(s[0]) {
        assert rest[j] in multiset(rest);
        BoundedMember(rest[j], s[1..], x, key(s[0]), key);
      }
      ConsSorted(s[0], rest, key);
      [s[0]] + rest
  }

  lemma ConsSorted<T>(h: T, s: seq<T>, key: T -> int)
    requires SortedDesc(s, key)
    requires forall j :: 0 <= j < |s| ==> key(s[j]) <= key(h)
    ensures SortedDesc([h] + s, key)
  {
    var r := [h] + s;
    forall i, j | 0 <= i < j < |r| ensures key(r[i]) >= key(r[j]) {
      if i > 0 { assert r[i] == s[i - 1] && r[j] == s[j - 1]; }
      else { assert r[j] == s[j - 1]; }
    }
  }

  lemma BoundedMember<T>(y: T, t: seq<T>, x: T, bound: int, key: T -> int)
    requires y in multiset(t) + multiset{x}
    requires key(x) <= bound
    requires forall i :: 0 <= i < |t| ==> key(t[i]) <= bound
    ensures key(y) <= bound
  {
    if y != x {
      assert y in multiset(t);
      assert y in t;
    }
  }

  /** The `$sort` stage on a descending numeric key (ties keep their input order). */
  function SortDesc<T>(xs: seq<T>, key: T -> int): (r: seq<T>)
    ensures SortedDesc(r, key)
    ensures multiset(r) == multiset(xs)
    ensures |r| == |xs|
  {
    if xs == [] then []
    else
      assert xs == [xs[0]] + xs[1..];
      InsertDesc(xs[0], SortDesc(xs[1..], key), key)
  }

  /** The first n elements of s, or all of them when there are fewer (a `$limit`). */
  function Prefix<T>(s: seq<T>, n: nat): (r: seq<T>)
    ensures |r| == if |s| < n then |s| else n
    ensures r == s[..|r|]
  {
    s[..if |s| < n then |s| else n]
  }

  /** `$sort` descending by key, then `$limit n`. */
  function TopN<T>(xs: seq<T>, key: T -> int, n: nat): (r: seq<T>)
    ensures |r| <= n && |r| <= |xs|
    ensures |xs| >= n ==> |r| == n
    ensures |xs| <= n ==> multiset(r) == multiset(xs)
    ensures SortedDesc(r, key)
    ensures multiset(r) <= multiset(xs)
    ensures forall y :: y in multiset(xs) - multiset(r) ==> forall i :: 0 <= i < |r| ==> key(y) <= key(r[i])
  {
    var s := SortDesc(xs, key);
    var r := Prefix(s, n);
    TopNFacts(xs, s, r, n, key);
    r
  }

  lemma TopNFacts<T>(xs: seq<T>, s: seq<T>, r: seq<T>, n: nat, key: T -> int)
    requires SortedDesc(s, key) && multiset(s) == multiset(xs) && |s| == |xs|
    requires |r| == (if |s| < n then |s| else n) && r == s[..|r|]
    ensures |r| <= n && |r| <= |xs|
    ensures |xs| >= n ==> |r| == n
    ensures |xs| <= n ==> multiset(r) == multiset(xs)
    ensures SortedDesc(r, key)
    ensures multiset(r) <= multiset(xs)
    ensures forall y :: y in multiset(xs) - multiset(r) ==> forall i :: 0 <= i < |r| ==> key(y) <= key(r[i])
  {
    TopNDropped(s, |r|, key);
    assert |xs| <= n ==> r == s;
  }

  lemma TopNDropped<T>(s: seq<T>, n: nat, key: T -> int)
    requires n <= |s| && SortedDesc(s, key)
    ensures multiset(s[..n]) <= multiset(s)
    ensures forall y :: y in multiset(s) - multiset(s[..n]) ==> forall i :: 0 <= i < n ==> key(y) <= key(s[i])
  {
    assert s == s[..n] + s[n..];
    assert multiset(s) == multiset(s[..n]) + multiset(s[n..]);
    forall y | y in multiset(s) - multiset(s[..n]) ensures forall i :: 0 <= i < n ==> key(y) <= key(s[i]) {
      assert y in multiset(s[n..]);
      assert y in s[n..];
      var j := Position(s[n..], y);
      assert s[n + j] == y;
    }
  }

  /** Sum of f over xs. */
  function SumOf<T>(xs: seq<T>, f: T -> int): int {
    if xs == [] then 0 else f(xs[0]) + SumOf(xs[1..], f)
  }

  /** Largest element of a non-empty sequence. */
  function MaxOf(s: seq<int>): (m: int)
    requires s != []
    ensures m in s
    ensures forall i :: 0 <= i < |s| ==> s[i] <= m
  {
    if |s| == 1 then s[0]
    else
      var m' := MaxOf(s[1..]);
      if s[0] >= m' then s[0] else m'
  }

  /** The maximum is the only member that bounds the sequence. */
  lemma MaxOfUnique(s: seq<int>, m: int)
    requires m in s && forall i :: 0 <= i < |s| ==> s[i] <= m
    ensures m == MaxOf(s)
  {
  }

  /** A position at which x occurs in s. */
  lemma Position<T>(s: seq<T>, x: T) returns (i: nat)
    requires x in s
    ensures i < |s| && s[i] == x
  {
    i :| i < |s| && s[i] == x;
  }

  /** Mapping both sides element-wise by f keeps one multiset inside the other. */
  lemma {:induction false} MapSubMultiset<T, U>(a: seq<T>, b: seq<T>, fa: seq<U>, fb: seq<U>, f: T -> U)
    requires multiset(a) <= multiset(b)
    requires |fa| == |a| && forall i :: 0 <= i < |a| ==> fa[i] == f(a[i])
    requires |fb| == |b| && forall i :: 0 <= i < |b| ==> fb[i] == f(b[i])
    ensures multiset(fa) <= multiset(fb)
    decreases |a|
  {
    if a != [] {
      assert a[0] in multiset(b);
      var k := Position(b, a[0]);
      RemoveAt(b, k);
      RemoveAt(fb, k);
      MapRemoveAt(b, fb, f, k);
      assert a == [a[0]] + a[1..];
      assert fa == [fa[0]] + fa[1..];
      assert multiset(a) == multiset(a[1..]) + multiset{a[0]};
      forall y ensures multiset(a[1..])[y] <= multiset(RemovedAt(b, k))[y] {
        assert multiset(a)[y] <= multiset(b)[y];
      }
      MapSubMultiset(a[1..], RemovedAt(b, k), fa[1..], RemovedAt(fb, k), f);
    }
  }

  /** s without its element at position k. */
  function RemovedAt<T>(s: seq<T>, k: nat): seq<T>
    requires k < |s|
  {
    s[..k] + s[k + 1..]
  }

  lemma RemoveAt<T>(s: seq<T>, k: nat)
    requires k < |s|
    ensures multiset(s) == multiset(RemovedAt(s, k)) + multiset{s[k]}
  {
    assert s == s[..k] + [s[k]] + s[k + 1..];
  }

  lemma MapRemoveAt<T, U>(b: seq<T>, fb: seq<U>, f: T -> U, k: nat)
    requires k < |b| && |fb| == |b| && forall i :: 0 <= i < |b| ==> fb[i] == f(b[i])
    ensures |RemovedAt(fb, k)| == |RemovedAt(b, k)|
    ensures forall i :: 0 <= i < |RemovedAt(b, k)| ==> RemovedAt(fb, k)[i] == f(RemovedAt(b, k)[i])
  {
    var b', fb' := RemovedAt(b, k), RemovedAt(fb, k);
    forall i | 0 <= i < |b'| ensures fb'[i] == f(b'[i]) {
      if i < k {
        assert fb'[i] == fb[i] && b'[i] == b[i];
      } else {
        assert fb'[i] == fb[i + 1] && b'[i] == b[i + 1];
      }
    }
  }

  ghost predicate NoDup<T>(s: seq<T>) {
    forall i, j :: 0 <= i < j < |s| ==> s[i] != s[j]
  }
}
