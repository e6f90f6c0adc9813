/**
 * The MongoDB aggregation stages the reporting endpoints use, over documents already in memory:
 * a ranked `$group` (group, `$sort` on the group size descending, `$limit`), `$group` followed by
 * `$sort` on a string `_id` ascending, and `$avg`; and the JavaScript number formatting the
 * endpoints apply to the results (`Math.round`, `toFixed(2)`, `parseFloat`).
 */
module Aggregate {
  import opened Wrappers
  import opened Collections
  import Text

  // ---------------------------------------------------------------------------
  // Multiplicities

  lemma {:induction false} DistinctMultiplicity<T>(s: seq<T>, x: T)
    requires forall i, j :: 0 <= i < j < |s| ==> s[i] != s[j]
    ensures multiset(s)[x] <= 1
    decreases |s|
  {
    if s != [] {
      assert s == [s[0]] + s[1..];
      DistinctMultiplicity(s[1..], x);
      if x == s[0] {
        assert x !in s[1..];
      }
    }
  }

  lemma RepeatedMultiplicity<T>(s: seq<T>, i: nat, j: nat)
    requires i < j < |s| && s[i] == s[j]
    ensures multiset(s)[s[i]] >= 2
  {
    assert s == s[..i] + [s[i]] + s[i + 1..j] + [s[j]] + s[j + 1..];
  }

  /** Distinct keys mean distinct buckets, so a sub-multiset of them has distinct keys too. */
  lemma SubBucketsDistinct<K, T>(r: seq<Bucket<K, T>>, g: seq<Bucket<K, T>>)
    requires forall i, j :: 0 <= i < j < |g| ==> g[i].key != g[j].key
    requires multiset(r) <= multiset(g)
    ensures forall i, j :: 0 <= i < j < |r| ==> r[i].key != r[j].key
  {
    forall i, j | 0 <= i < j < |r| ensures r[i].key != r[j].key {
      if r[i].key == r[j].key {
        assert r[i] in multiset(g) && r[j] in multiset(g);
        var a :| 0 <= a < |g| && g[a] == r[i];
        var b :| 0 <= b < |g| && g[b] == r[j];
        assert a == b;
        RepeatedMultiplicity(r, i, j);
        DistinctMultiplicity(g, r[i]);
        assert false;
      }
    }
  }

  // ---------------------------------------------------------------------------
  // Ranked groups

  function Size<K, T>(b: Bucket<K, T>): int {
    |b.members|
  }

  /**
   * `$group` by key, `$sort` on the group size descending, `$limit n`: the largest groups,
   * largest first. Either every key is shown or exactly n are, and a key left out has no more
   * members than any shown.
   */
  function Ranked<T, K(==)>(xs: seq<T>, key: T -> K, n: nat): (r: seq<Bucket<K, T>>)
    ensures |r| <= n
    ensures forall i :: 0 <= i < |r| ==> r[i].members == Select(xs, key, r[i].key) && r[i].members != []
    ensures forall i, j :: 0 <= i < j < |r| ==> r[i].key != r[j].key
    ensures forall i, j :: 0 <= i < j < |r| ==> |r[i].members| >= |r[j].members|
    ensures |r| == n || forall m :: 0 <= m < |xs| ==> HasKey(r, key(xs[m]))
    ensures forall m :: 0 <= m < |xs| && (forall i :: 0 <= i < |r| ==> r[i].key != key(xs[m])) ==>
              forall i :: 0 <= i < |r| ==> |Select(xs, key, key(xs[m]))| <= |r[i].members|
  {
    var g := GroupBy(xs, key);
    var r := TopN(g, Size, n);
    RankedFacts(xs, key, n, g, r);
    r
  }

  lemma RankedFacts<T, K>(xs: seq<T>, key: T -> K, n: nat, g: seq<Bucket<K, T>>, r: seq<Bucket<K, T>>)
    requires IsGrouping(g, xs, key)
    requires r == TopN(g, Size, n)
    ensures forall i :: 0 <= i < |r| ==> r[i].members == Select(xs, key, r[i].key) && r[i].members != []
    ensures forall i, j :: 0 <= i < j < |r| ==> r[i].key != r[j].key
    ensures forall i, j :: 0 <= i < j < |r| ==> |r[i].members| >= |r[j].members|
    ensures |r| == n || forall m :: 0 <= m < |xs| ==> HasKey(r, key(xs[m]))
    ensures forall m :: 0 <= m < |xs| && (forall i :: 0 <= i < |r| ==> r[i].key != key(xs[m])) ==>
              forall i :: 0 <= i < |r| ==> |Select(xs, key, key(xs[m]))| <= |r[i].members|
  {
    SubBucketsMembers(xs, key, g, r);
    SubBucketsDistinct(r, g);
    forall i, j | 0 <= i < j < |r| ensures |r[i].members| >= |r[j].members| {
      assert Size(r[i]) >= Size(r[j]);
    }
    if |r| != n {
      assert multiset(r) == multiset(g);
      SameBucketsCover(xs, key, g, r);
    }
    RankedDropped(xs, key, n, g, r);
  }

  lemma SubBucketsMembers<T, K>(xs: seq<T>, key: T -> K, g: seq<Bucket<K, T>>, r: seq<Bucket<K, T>>)
    requires IsGrouping(g, xs, key)
    requires multiset(r) <= multiset(g)
    ensures forall i :: 0 <= i < |r| ==> r[i].members == Select(xs, key, r[i].key) && r[i].members != []
  {
    forall i | 0 <= i < |r| ensures r[i].members == Select(xs, key, r[i].key) && r[i].members != [] {
      assert r[i] in multiset(r);
      assert r[i] in multiset(g);
      assert r[i] in g;
    }
  }

  lemma SameBucketsCover<T, K>(xs: seq<T>, key: T -> K, g: seq<Bucket<K, T>>, r: seq<Bucket<K, T>>)
    requires IsGrouping(g, xs, key)
    requires multiset(r) == multiset(g)
    ensures forall m :: 0 <= m < |xs| ==> HasKey(r, key(xs[m]))
  {
    forall m | 0 <= m < |xs| ensures HasKey(r, key(xs[m])) {
      assert exists a :: 0 <= a < |g| && g[a].key == key(xs[m]);
      var a :| 0 <= a < |g| && g[a].key == key(xs[m]);
      assert g[a] in multiset(g);
      assert g[a] in multiset(r);
      var i :| 0 <= i < |r| && r[i] == g[a];
    }
  }

  lemma RankedDropped<T, K>(xs: seq<T>, key: T -> K, n: nat, g: seq<Bucket<K, T>>, r: seq<Bucket<K, T>>)
    requires IsGrouping(g, xs, key)
    requires r == TopN(g, Size, n)
    ensures forall m :: 0 <= m < |xs| && (forall i :: 0 <= i < |r| ==> r[i].key != key(xs[m])) ==>
              forall i :: 0 <= i < |r| ==> |Select(xs, key, key(xs[m]))| <= |r[i].members|
  {
    forall m | 0 <= m < |xs| && (forall i :: 0 <= i < |r| ==> r[i].key != key(xs[m])) {
      RankedDroppedOne(xs, key, n, g, r, m);
    }
  }

  lemma RankedDroppedOne<T, K>(xs: seq<T>, key: T -> K, n: nat, g: seq<Bucket<K, T>>, r: seq<Bucket<K, T>>, m: nat)
    requires IsGrouping(g, xs, key)
    requires r == TopN(g, Size, n)
    requires m < |xs| && forall i :: 0 <= i < |r| ==> r[i].key != key(xs[m])
    ensures forall i :: 0 <= i < |r| ==> |Select(xs, key, key(xs[m]))| <= |r[i].members|
  {
    assert HasKey(g, key(xs[m]));
    var a :| 0 <= a < |g| && g[a].key == key(xs[m]);
    assert g[a] !in r;
    assert g[a] in multiset(g) - multiset(r);
    forall i | 0 <= i < |r| ensures |g[a].members| <= |r[i].members| {
      assert Size(g[a]) <= Size(r[i]);
    }
  }

  function Keys<K, T>(bs: seq<Bucket<K, T>>): (ks: seq<K>)
    ensures |ks| == |bs| && forall i :: 0 <= i < |bs| ==> ks[i] == bs[i].key
  {
    seq(|bs|, i requires 0 <= i < |bs| => bs[i].key)
  }

  function Sizes<K, T>(bs: seq<Bucket<K, T>>): (cs: seq<int>)
    ensures |cs| == |bs| && forall i :: 0 <= i < |bs| ==> cs[i] == |bs[i].members|
  {
    seq(|bs|, i requires 0 <= i < |bs| => |bs[i].members|)
  }

  /**
   * ks and cs are the keys and sizes of the largest groups of xs by key, at most n of them,
   * largest first: every count is the number of elements with that key, no key repeats, and
   * either every key is shown or n are and none left out is larger than one shown.
   */
  ghost predicate TopGroups<T, K>(ks: seq<K>, cs: seq<int>, xs: seq<T>, key: T -> K, n: nat) {
    && |ks| == |cs| <= n
    && (forall i :: 0 <= i < |ks| ==> cs[i] == |Select(xs, key, ks[i])| && cs[i] > 0)
    && (forall i, j :: 0 <= i < j < |ks| ==> ks[i] != ks[j] && cs[i] >= cs[j])
    && (|ks| == n || forall m :: 0 <= m < |xs| ==> key(xs[m]) in ks)
    && (forall m :: 0 <= m < |xs| && key(xs[m]) !in ks ==>
          forall i :: 0 <= i < |cs| ==> |Select(xs, key, key(xs[m]))| <= cs[i])
  }

  lemma RankedTop<T, K>(xs: seq<T>, key: T -> K, n: nat)
    ensures TopGroups(Keys(Ranked(xs, key, n)), Sizes(Ranked(xs, key, n)), xs, key, n)
  {
    RankedTopOf(xs, key, n, Ranked(xs, key, n));
  }

  lemma RankedTopOf<T, K>(xs: seq<T>, key: T -> K, n: nat, r: seq<Bucket<K, T>>)
    requires |r| <= n
    requires forall i :: 0 <= i < |r| ==> r[i].members == Select(xs, key, r[i].key) && r[i].members != []
    requires forall i, j :: 0 <= i < j < |r| ==> r[i].key != r[j].key
    requires forall i, j :: 0 <= i < j < |r| ==> |r[i].members| >= |r[j].members|
    requires |r| == n || forall m :: 0 <= m < |xs| ==> HasKey(r, key(xs[m]))
    requires forall m :: 0 <= m < |xs| && (forall i :: 0 <= i < |r| ==> r[i].key != key(xs[m])) ==>
               forall i :: 0 <= i < |r| ==> |Select(xs, key, key(xs[m]))| <= |r[i].members|
    ensures TopGroups(Keys(r), Sizes(r), xs, key, n)
  {
    RankedTopCounts(xs, key, r);
    RankedTopOrder(r);
    if |r| != n { RankedTopCover(xs, key, r); }
    RankedTopDropped(xs, key, r);
    TopGroupsIntro(Keys(r), Sizes(r), xs, key, n);
  }

  lemma TopGroupsIntro<T, K>(ks: seq<K>, cs: seq<int>, xs: seq<T>, key: T -> K, n: nat)
    requires |ks| == |cs| <= n
    requires forall i :: 0 <= i < |ks| ==> cs[i] == |Select(xs, key, ks[i])| && cs[i] > 0
    requires forall i, j :: 0 <= i < j < |ks| ==> ks[i] != ks[j] && cs[i] >= cs[j]
    requires |ks| == n || forall m :: 0 <= m < |xs| ==> key(xs[m]) in ks
    requires forall m :: 0 <= m < |xs| && key(xs[m]) !in ks ==>
               forall i :: 0 <= i < |cs| ==> |Select(xs, key, key(xs[m]))| <= cs[i]
    ensures TopGroups(ks, cs, xs, key, n)
  {
  }

  lemma RankedTopCounts<T, K>(xs: seq<T>, key: T -> K, r: seq<Bucket<K, T>>)
    requires forall i :: 0 <= i < |r| ==> r[i].members == Select(xs, key, r[i].key) && r[i].members != []
    ensures forall i :: 0 <= i < |r| ==> Sizes(r)[i] == |Select(xs, key, Keys(r)[i])| && Sizes(r)[i] > 0
  {
  }

  lemma RankedTopOrder<K, T>(r: seq<Bucket<K, T>>)
    requires forall i, j :: 0 <= i < j < |r| ==> r[i].key != r[j].key
    requires forall i, j :: 0 <= i < j < |r| ==> |r[i].members| >= |r[j].members|
    ensures forall i, j :: 0 <= i < j < |r| ==> Keys(r)[i] != Keys(r)[j] && Sizes(r)[i] >= Sizes(r)[j]
  {
  }

  lemma RankedTopCover<T, K>(xs: seq<T>, key: T -> K, r: seq<Bucket<K, T>>)
    requires forall m :: 0 <= m < |xs| ==> HasKey(r, key(xs[m]))
    ensures forall m :: 0 <= m < |xs| ==> key(xs[m]) in Keys(r)
  {
    var ks := Keys(r);
    forall m | 0 <= m < |xs| ensures key(xs[m]) in ks {
      assert HasKey(r, key(xs[m]));
      var i :| 0 <= i < |r| && r[i].key == key(xs[m]);
      assert ks[i] == key(xs[m]);
    }
  }

  lemma RankedTopDropped<T, K>(xs: seq<T>, key: T -> K, r: seq<Bucket<K, T>>)
    requires forall m :: 0 <= m < |xs| && (forall i :: 0 <= i < |r| ==> r[i].key != key(xs[m])) ==>
               forall i :: 0 <= i < |r| ==> |Select(xs, key, key(xs[m]))| <= |r[i].members|
    ensures forall m :: 0 <= m < |xs| && key(xs[m]) !in Keys(r) ==>
               forall i :: 0 <= i < |r| ==> |Select(xs, key, key(xs[m]))| <= Sizes(r)[i]
  {
    var ks := Keys(r);
    forall m | 0 <= m < |xs| && key(xs[m]) !in ks
      ensures forall i :: 0 <= i < |r| ==> |Select(xs, key, key(xs[m]))| <= Sizes(r)[i]
    {
      forall i | 0 <= i < |r| ensures r[i].key != key(xs[m]) {
        assert ks[i] == r[i].key;
      }
    }
  }

  // ---------------------------------------------------------------------------
  // Ascending order on string keys

  /** Code-unit order on strings, the order of a `$sort` on a string `_id` ascending. */
  predicate LexLe(a: string, b: string)
    decreases |a|
  {
    a == [] || (b != [] && (a[0] < b[0] || (a[0] == b[0] && LexLe(a[1..], b[1..]))))
  }

  lemma {:induction false} LexLeTotal(a: string, b: string)
    ensures LexLe(a, b) || LexLe(b, a)
    decreases |a|
  {
    if a != [] && b != [] && a[0] == b[0] { LexLeTotal(a[1..], b[1..]); }
  }

  lemma {:induction false} LexLeTrans(a: string, b: string, c: string)
    requires LexLe(a, b) && LexLe(b, c)
    ensures LexLe(a, c)
    decreases |a|
  {
    if a != [] && a[0] == b[0] && b[0] == c[0] { LexLeTrans(a[1..], b[1..], c[1..]); }
  }

  lemma {:induction false} LexLeAntisym(a: string, b: string)
    requires LexLe(a, b) && LexLe(b, a)
    ensures a == b
    decreases |a|
  {
    if a != [] {
      LexLeAntisym(a[1..], b[1..]);
      assert a == [a[0]] + a[1..] && b == [b[0]] + b[1..];
    }
  }

  ghost predicate SortedAsc<T>(bs: seq<Bucket<string, T>>) {
    forall i, j :: 0 <= i < j < |bs| ==> LexLe(bs[i].key, bs[j].key)
  }

  function InsertAsc<T>(x: Bucket<string, T>, s: seq<Bucket<string, T>>): (r: seq<Bucket<string, T>>)
    requires SortedAsc(s)
    ensures SortedAsc(r)
    ensures multiset(r) == multiset(s) + multiset{x}
    ensures TotalSize(r) == TotalSize(s) + |x.members|
  {
    if s == [] || LexLe(x.key, s[0].key) then
      InsertFirst(x, s);
      [x] + s
    else
      LexLeTotal(x.key, s[0].key);
      var rest := InsertAsc(x, s[1..]);
      assert s == [s[0]] + s[1..];
      forall j | 0 <= j < |rest| ensures LexLe(s[0].key, rest[j].key) {
        assert rest[j] in multiset(s[1..]) + multiset{x};
        if rest[j] != x {
          assert rest[j] in s[1..];
        }
      }
      ConsAsc(s[0], rest);
      assert ([s[0]] + rest)[1..] == rest;
      [s[0]] + rest
  }

  lemma InsertFirst<T>(x: Bucket<string, T>, s: seq<Bucket<string, T>>)
    requires SortedAsc(s)
    requires s == [] || LexLe(x.key, s[0].key)
    ensures SortedAsc([x] + s)
  {
    forall j | 0 <= j < |s| ensures LexLe(x.key, s[j].key) {
      if j > 0 { LexLeTrans(x.key, s[0].key, s[j].key); }
    }
    ConsAsc(x, s);
  }

  lemma ConsAsc<T>(h: Bucket<string, T>, s: seq<Bucket<string, T>>)
    requires SortedAsc(s)
    requires forall j :: 0 <= j < |s| ==> LexLe(h.key, s[j].key)
    ensures SortedAsc([h] + s)
  {
    var r := [h] + s;
    forall i, j | 0 <= i < j < |r| ensures LexLe(r[i].key, r[j].key) {
      if i > 0 { assert r[i] == s[i - 1] && r[j] == s[j - 1]; }
      else { assert r[j] == s[j - 1]; }
    }
  }

  function SortAsc<T>(bs: seq<Bucket<string, T>>): (r: seq<Bucket<string, T>>)
    ensures SortedAsc(r)
    ensures multiset(r) == multiset(bs)
    ensures TotalSize(r) == TotalSize(bs)
  {
    if bs == [] then []
    else
      assert bs == [bs[0]] + bs[1..];
      InsertAsc(bs[0], SortAsc(bs[1..]))
  }

  /**
   * `$group` on a string key followed by `$sort: { _id: 1 }`: one bucket per key, keys strictly
   * ascending, every element in exactly one bucket.
   */
  function GroupedAsc<T>(xs: seq<T>, key: T -> string): (r: seq<Bucket<string, T>>)
    ensures IsGrouping(r, xs, key)
    ensures forall i, j :: 0 <= i < j < |r| ==> LexLe(r[i].key, r[j].key) && r[i].key != r[j].key
    ensures TotalSize(r) == |xs|
  {
    var g := GroupBy(xs, key);
    var r := SortAsc(g);
    PermutedGrouping(xs, key, g, r);
    r
  }

  lemma PermutedGrouping<T, K>(xs: seq<T>, key: T -> K, g: seq<Bucket<K, T>>, r: seq<Bucket<K, T>>)
    requires IsGrouping(g, xs, key) && multiset(r) == multiset(g)
    ensures IsGrouping(r, xs, key)
  {
    SubBucketsDistinct(r, g);
    SubBucketsMembers(xs, key, g, r);
    SameBucketsCover(xs, key, g, r);
  }

  // ---------------------------------------------------------------------------
  // Result rows

  /** One output document of a `$group`: its `_id`, its `$sum: 1` count and its other accumulators. */
  datatype Row<K, S> = Row(key: K, count: nat, stats: S)

  function RowKeys<K, S>(r: seq<Row<K, S>>): (ks: seq<K>)
    ensures |ks| == |r| && forall i :: 0 <= i < |r| ==> ks[i] == r[i].key
  {
    seq(|r|, i requires 0 <= i < |r| => r[i].key)
  }

  function RowCounts<K, S>(r: seq<Row<K, S>>): (cs: seq<int>)
    ensures |cs| == |r| && forall i :: 0 <= i < |r| ==> cs[i] == r[i].count
  {
    seq(|r|, i requires 0 <= i < |r| => r[i].count)
  }

  function Tabulate<K, T, S>(bs: seq<Bucket<K, T>>, stats: seq<T> -> S): (r: seq<Row<K, S>>)
    ensures |r| == |bs|
    ensures forall i :: 0 <= i < |r| ==> r[i] == Row(bs[i].key, |bs[i].members|, stats(bs[i].members))
  {
    seq(|bs|, i requires 0 <= i < |bs| => Row(bs[i].key, |bs[i].members|, stats(bs[i].members)))
  }

  /** A table of buckets that each hold exactly their key's documents has their keys and sizes. */
  lemma TabulateRows<K, T, S>(bs: seq<Bucket<K, T>>, xs: seq<T>, key: T -> K, stats: seq<T> -> S, r: seq<Row<K, S>>)
    requires forall i :: 0 <= i < |bs| ==> bs[i].members == Select(xs, key, bs[i].key)
    requires |r| == |bs| && forall i :: 0 <= i < |r| ==> r[i] == Row(bs[i].key, |bs[i].members|, stats(bs[i].members))
    ensures RowKeys(r) == Keys(bs) && RowCounts(r) == Sizes(bs)
    ensures forall i :: 0 <= i < |r| ==> r[i].stats == stats(Select(xs, key, r[i].key))
  {
    assert RowKeys(r) == Keys(bs);
    assert RowCounts(r) == Sizes(bs);
  }

  /**
   * The `$group` → `$sort` on the count descending → `$limit n` pipeline: the n largest groups
   * (TopGroups), each with the accumulators of exactly its own documents.
   */
  function RankedTable<T, K(==), S>(xs: seq<T>, key: T -> K, n: nat, stats: seq<T> -> S): (r: seq<Row<K, S>>)
    ensures TopGroups(RowKeys(r), RowCounts(r), xs, key, n)
    ensures forall i :: 0 <= i < |r| ==> r[i].stats == stats(Select(xs, key, r[i].key))
  {
    var b := Ranked(xs, key, n);
    RankedTop(xs, key, n);
    var r := Tabulate(b, stats);
    TabulateRows(b, xs, key, stats, r);
    r
  }

  /** The accumulators do not affect which groups a ranked table shows, nor their order or counts. */
  lemma RankedTableShape<T, K, S, U>(xs: seq<T>, key: T -> K, n: nat, s1: seq<T> -> S, s2: seq<T> -> U)
    ensures RowKeys(RankedTable(xs, key, n, s1)) == RowKeys(RankedTable(xs, key, n, s2))
    ensures RowCounts(RankedTable(xs, key, n, s1)) == RowCounts(RankedTable(xs, key, n, s2))
  {
    var b := Ranked(xs, key, n);
    TabulateShape(b, s1);
    TabulateShape(b, s2);
  }

  lemma TabulateShape<K, T, S>(bs: seq<Bucket<K, T>>, stats: seq<T> -> S)
    ensures RowKeys(Tabulate(bs, stats)) == Keys(bs)
    ensures RowCounts(Tabulate(bs, stats)) == Sizes(bs)
  {
  }

  /** ks and cs are the keys and sizes of all groups of xs by key: each key once, sizes adding up to |xs|. */
  ghost predicate Groups<T, K>(ks: seq<K>, cs: seq<int>, xs: seq<T>, key: T -> K) {
    && |ks| == |cs|
    && (forall i :: 0 <= i < |ks| ==> cs[i] == |Select(xs, key, ks[i])| && cs[i] > 0)
    && (forall i, j :: 0 <= i < j < |ks| ==> ks[i] != ks[j])
    && (forall m :: 0 <= m < |xs| ==> key(xs[m]) in ks)
    && Sum(cs) == |xs|
  }

  lemma {:induction false} SumSizes<K, T>(bs: seq<Bucket<K, T>>)
    ensures Sum(Sizes(bs)) == TotalSize(bs)
    decreases |bs|
  {
    if bs != [] {
      assert Sizes(bs)[1..] == Sizes(bs[1..]);
      SumSizes(bs[1..]);
    }
  }

  lemma GroupingGroups<T, K>(bs: seq<Bucket<K, T>>, xs: seq<T>, key: T -> K)
    requires IsGrouping(bs, xs, key) && TotalSize(bs) == |xs|
    ensures Groups(Keys(bs), Sizes(bs), xs, key)
  {
    var ks := Keys(bs);
    forall m | 0 <= m < |xs| ensures key(xs[m]) in ks {
      assert HasKey(bs, key(xs[m]));
      var i :| 0 <= i < |bs| && bs[i].key == key(xs[m]);
      assert ks[i] == key(xs[m]);
    }
    SumSizes(bs);
  }

  /** A `$group` with no `$sort`: every group, in the order the grouping yields. */
  function GroupTable<T, K(==), S>(xs: seq<T>, key: T -> K, stats: seq<T> -> S): (r: seq<Row<K, S>>)
    ensures Groups(RowKeys(r), RowCounts(r), xs, key)
    ensures forall i :: 0 <= i < |r| ==> r[i].stats == stats(Select(xs, key, r[i].key))
  {
    var b := GroupBy(xs, key);
    GroupingGroups(b, xs, key);
    var r := Tabulate(b, stats);
    TabulateRows(b, xs, key, stats, r);
    r
  }

  /** A `$group` on a string `_id` followed by `$sort: { _id: 1 }`. */
  function DailyTable<T, S>(xs: seq<T>, key: T -> string, stats: seq<T> -> S): (r: seq<Row<string, S>>)
    ensures Groups(RowKeys(r), RowCounts(r), xs, key)
    ensures forall i, j :: 0 <= i < j < |r| ==> LexLe(r[i].key, r[j].key)
    ensures forall i :: 0 <= i < |r| ==> r[i].stats == stats(Select(xs, key, r[i].key))
  {
    var b := GroupedAsc(xs, key);
    GroupingGroups(b, xs, key);
    var r := Tabulate(b, stats);
    TabulateRows(b, xs, key, stats, r);
    r
  }

  /** Likewise for a table of all groups in ascending key order. */
  lemma DailyTableShape<T, S, U>(xs: seq<T>, key: T -> string, s1: seq<T> -> S, s2: seq<T> -> U)
    ensures RowKeys(DailyTable(xs, key, s1)) == RowKeys(DailyTable(xs, key, s2))
    ensures RowCounts(DailyTable(xs, key, s1)) == RowCounts(DailyTable(xs, key, s2))
  {
    var b := GroupedAsc(xs, key);
    TabulateShape(b, s1);
    TabulateShape(b, s2);
  }

  // ---------------------------------------------------------------------------
  // `$avg` and JavaScript number formatting

  function Sum(xs: seq<int>): int {
    if xs == [] then 0 else xs[0] + Sum(xs[1..])
  }

  lemma {:induction false} SumBounds(xs: seq<int>, lo: int, hi: int)
    requires forall i :: 0 <= i < |xs| ==> lo <= xs[i] <= hi
    ensures |xs| * lo <= Sum(xs) <= |xs| * hi
    decreases |xs|
  {
    if xs != [] {
      SumBounds(xs[1..], lo, hi);
      assert |xs| * lo == lo + (|xs| - 1) * lo;
      assert |xs| * hi == hi + (|xs| - 1) * hi;
    }
  }

  /** `$avg`: the mean of the numeric values, or null when there are none. */
  function Avg(xs: seq<int>): (r: Option<real>)
    ensures r.None? <==> xs == []
  {
    if xs == [] then None else Some(Sum(xs) as real / |xs| as real)
  }

  /** The mean lies between the smallest and largest value. */
  lemma AvgBounds(xs: seq<int>, lo: int, hi: int)
    requires xs != []
    requires forall i :: 0 <= i < |xs| ==> lo <= xs[i] <= hi
    ensures lo as real <= Avg(xs).value <= hi as real
  {
    SumBounds(xs, lo, hi);
    var n := |xs|;
    MeanBetween(Sum(xs), n, lo);
    MeanBetween(Sum(xs), n, hi);
  }

  /** Dividing a bound on a total by the count bounds the mean. */
  lemma MeanBetween(total: int, n: nat, bound: int)
    requires n > 0
    ensures n * bound <= total ==> bound as real <= total as real / n as real
    ensures total <= n * bound ==> total as real / n as real <= bound as real
  {
    var q := total as real / n as real;
    assert q * n as real == total as real;
    assert (n * bound) as real == n as real * bound as real;
  }

  /** `Math.round`: the nearest integer, halves rounded up. */
  function Round(x: real): (r: int)
    ensures r as real - 0.5 <= x < r as real + 0.5
  {
    (x + 0.5).Floor
  }

  lemma RoundMonotone(x: real, y: real)
    requires x <= y
    ensures Round(x) <= Round(y)
  {
  }

  /** `Math.round` of an integer is that integer. */
  lemma RoundInt(n: int)
    ensures Round(n as real) == n
  {
  }

  /** The value `parseFloat(x.toFixed(2))` for x >= 0: x rounded to hundredths, halves up. */
  function Round2(x: real): (r: real)
    requires x >= 0.0
    ensures -0.005 < r - x <= 0.005
  {
    Round(x * 100.0) as real / 100.0
  }

  /** A percentage in [0, 100] stays in [0, 100] when rounded to hundredths. */
  lemma Round2Percent(x: real)
    requires 0.0 <= x <= 100.0
    ensures 0.0 <= Round2(x) <= 100.0
  {
    RoundMonotone(x * 100.0, 10000.0);
    RoundInt(10000);
  }

  /** `x.toFixed(2)` for x >= 0: the integer part, a point and two digits. */
  function ToFixed2(x: real): (s: string)
    requires x >= 0.0
    ensures |s| >= 4 && s[|s| - 3] == '.'
    ensures forall i :: 0 <= i < |s| && i != |s| - 3 ==> Text.IsDigit(s[i])
  {
    var n := Round(x * 100.0);
    Text.Decimal(n / 100) + "." + [Text.DigitChar(n / 10 % 10), Text.DigitChar(n % 10)]
  }

  /**
   * `parseFloat` on the strings it is given here: digits, optionally a point and more digits.
   * Anything else is None (NaN).
   */
  function ParseFloat(s: string): Option<real> {
    match Text.IndexOf(s, ".")
    case None =>
      if s != [] && Text.AllDigits(s) then Some(Text.ParseDecimal(s) as real) else None
    case Some(p) =>
      if s[..p] != [] && Text.AllDigits(s[..p]) && Text.AllDigits(s[p + 1..])
      then Some(FixedValue(s[..p], s[p + 1..]))
      else None
  }

  /** The number written `whole.frac`. */
  function FixedValue(whole: string, frac: string): real
    requires Text.AllDigits(whole) && Text.AllDigits(frac)
  {
    Text.ParseDecimal(whole) as real + Text.ParseDecimal(frac) as real / Pow10(|frac|) as real
  }

  function Pow10(n: nat): (r: nat)
    ensures r >= 1
  {
    if n == 0 then 1 else 10 * Pow10(n - 1)
  }

  /** Reading back what `toFixed(2)` wrote gives the value rounded to hundredths. */
  lemma ParseFloatToFixed2(x: real)
    requires x >= 0.0
    ensures ParseFloat(ToFixed2(x)) == Some(Round2(x))
  {
    var n: nat := Round(x * 100.0);
    FixedParts(n);
    assert (n / 100) as real + (n % 100) as real / 100.0 == n as real / 100.0;
  }

  /** The point in `whole.dd` is the first one, and both sides read back as numbers. */
  lemma FixedParts(n: nat)
    ensures var s := Text.Decimal(n / 100) + "." + [Text.DigitChar(n / 10 % 10), Text.DigitChar(n % 10)];
      ParseFloat(s) == Some((n / 100) as real + (n % 100) as real / 100.0)
  {
    var w, f := n / 100, n % 100;
    var whole := Text.Decimal(w);
    var frac := [Text.DigitChar(n / 10 % 10), Text.DigitChar(n % 10)];
    ParseFloatPoint(whole, frac);
    Text.ParseDecimalOfDecimal(w);
    FracDigits(n);
    TwoPlaces(whole, frac, w, f);
  }

  lemma TwoPlaces(whole: string, frac: string, w: nat, f: nat)
    requires Text.AllDigits(whole) && Text.AllDigits(frac) && |frac| == 2
    requires Text.ParseDecimal(whole) == w && Text.ParseDecimal(frac) == f
    ensures FixedValue(whole, frac) == w as real + f as real / 100.0
  {
    assert Pow10(|frac|) == 100;
  }

  lemma ParseFloatPoint(whole: string, frac: string)
    requires whole != [] && Text.AllDigits(whole) && Text.AllDigits(frac)
    ensures ParseFloat(whole + "." + frac) == Some(FixedValue(whole, frac))
  {
    var s := whole + "." + frac;
    PointIndex(whole, frac);
    assert s[..|whole|] == whole;
    assert s[|whole| + 1..] == frac;
  }

  lemma FracDigits(n: nat)
    ensures Text.ParseDecimal([Text.DigitChar(n / 10 % 10), Text.DigitChar(n % 10)]) == n % 100
  {
    assert n / 10 % 10 == n % 100 / 10 && n % 10 == n % 100 % 10;
    Text.ParseTwoDigits(n % 100);
  }

  lemma PointIndex(whole: string, frac: string)
    requires Text.AllDigits(whole)
    ensures Text.IndexOf(whole + "." + frac, ".") == Some(|whole|)
  {
    var s := whole + "." + frac;
    assert s[|whole|..|whole| + 1] == ".";
    forall i | 0 <= i < |whole| ensures !Text.OccursAt(s, ".", i) {
      assert s[i..i + 1] == [whole[i]];
    }
    Text.IndexOfFirst(s, ".", |whole|);
  }

  /** `parseFloat('0')`, the fallback of the rate when there are no sessions. */
  lemma ParseFloatZero()
    ensures ParseFloat("0") == Some(0.0)
  {
    assert "0"[0..1] == "0";
    assert !Text.OccursAt("0", ".", 0);
  }
}
