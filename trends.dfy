/** `Trends`: the trending topics of one time bucket, stamped with the instant the
    server computed them (`asOf`) and the bucket's own instant (`trendAt`). The record
    has no setters, so it is a datatype. Also the ordering `Collections.sort` applies
    to a list of them. */
module TrendsData {
  import opened Wrappers
  import opened JavaNumbers
  import opened ParseUtil
  import opened ValueTypes

  datatype Trends = Trends(asOf: Option<Date>, trendAt: Option<Date>, trends: Option<seq<Trend>>)

  /** What `new Trends()` holds: nothing. */
  const NO_TRENDS: Trends := Trends(None, None, None)

  /** `compareTo` dereferences both bucket instants. */
  predicate Comparable(a: Trends, b: Trends) {
    a.trendAt.Some? && b.trendAt.Some?
  }

  /** `compareTo`: `Date.compareTo` of the two bucket instants, nothing else. */
  function CompareTo(a: Trends, b: Trends): (c: int)
    requires Comparable(a, b)
    ensures -1 <= c <= 1
    ensures c < 0 <==> a.trendAt.value < b.trendAt.value
    ensures c == 0 <==> a.trendAt == b.trendAt
  {
    if a.trendAt.value < b.trendAt.value then -1
    else if a.trendAt.value == b.trendAt.value then 0
    else 1
  }

  /** A record made by the no-argument constructor cannot be ordered against anything. */
  lemma NoTrendsNotComparable(t: Trends)
    ensures !Comparable(NO_TRENDS, t) && !Comparable(t, NO_TRENDS)
  {
  }

  /** `Arrays.equals` over two possibly-null trend arrays. */
  predicate TrendArraysEqual(x: Option<seq<Trend>>, y: Option<seq<Trend>>) {
    if x.None? || y.None? then x.None? && y.None?
    else |x.value| == |y.value| && forall i :: 0 <= i < |x.value| ==> x.value[i] == y.value[i]
  }

  /** `equals`: the two instants null-safely and the arrays element by element; since
      `Trend` equality is taken to be structural, that is equality of the records. */
  predicate Equals(a: Trends, b: Trends)
    ensures Equals(a, b) <==> a == b
  {
    assert TrendArraysEqual(a.trends, b.trends) ==> a.trends == b.trends by {
      if a.trends.Some? && b.trends.Some? && TrendArraysEqual(a.trends, b.trends) {
        assert a.trends.value == b.trends.value;
      }
    }
    a.asOf == b.asOf && a.trendAt == b.trendAt && TrendArraysEqual(a.trends, b.trends)
  }

  function OptDateHash(d: Option<Date>): (h: int)
    ensures IsInt(h)
  {
    if d.None? then 0 else LongHash(d.value)
  }

  /** `Arrays.hashCode(Object[])`: 1, then `31 * h + e.hashCode()` per element. */
  function TrendArrayHash(s: seq<Trend>, trendHash: Trend -> int): (h: int)
    ensures IsInt(h)
  {
    if s == [] then 1 else HashStep(TrendArrayHash(s[..|s| - 1], trendHash), ToInt32(trendHash(s[|s| - 1])))
  }

  /** `hashCode`: `asOf`, `trendAt`, then the array, each 0 when null. */
  function HashCode(t: Trends, trendHash: Trend -> int): (h: int)
    ensures IsInt(h)
    ensures t == NO_TRENDS ==> h == 0
  {
    var h := HashStep(OptDateHash(t.asOf), OptDateHash(t.trendAt));
    HashStep(h, if t.trends.None? then 0 else TrendArrayHash(t.trends.value, trendHash))
  }

  /** Equal records hash alike. */
  lemma HashConsistent(a: Trends, b: Trends, trendHash: Trend -> int)
    requires Equals(a, b)
    ensures HashCode(a, trendHash) == HashCode(b, trendHash)
  {
  }

  // ---- Collections.sort ----

  predicate AllDated(s: seq<Trends>) {
    forall t :: t in s ==> t.trendAt.Some?
  }

  /** Ascending bucket instants, which is ascending by `compareTo` (see `SortedMeansCompareTo`). */
  predicate SortedByTrendAt(s: seq<Trends>)
    requires AllDated(s)
  {
    forall i, j :: 0 <= i < j < |s| ==> s[i].trendAt.value <= s[j].trendAt.value
  }

  lemma SortedMeansCompareTo(s: seq<Trends>)
    requires AllDated(s) && SortedByTrendAt(s)
    ensures forall i, j :: 0 <= i < j < |s| ==> CompareTo(s[i], s[j]) <= 0
  {
  }

  /** No element of `s` has an instant before `d`. */
  predicate NotBefore(d: Date, s: seq<Trends>)
    requires AllDated(s)
  {
    forall t :: t in s ==> d <= t.trendAt.value
  }

  lemma HeadNotAfterTail(s: seq<Trends>)
    requires AllDated(s) && SortedByTrendAt(s) && s != []
    ensures NotBefore(s[0].trendAt.value, s[1..])
  {
    forall t | t in s[1..]
      ensures s[0].trendAt.value <= t.trendAt.value
    {
      var k :| 0 <= k < |s[1..]| && s[1..][k] == t;
      assert s[k + 1] == t;
    }
  }

  lemma SortedCons(h: Trends, s: seq<Trends>)
    requires h.trendAt.Some? && AllDated(s) && SortedByTrendAt(s)
    requires NotBefore(h.trendAt.value, s)
    ensures AllDated([h] + s) && SortedByTrendAt([h] + s)
  {
    var r := [h] + s;
    forall i, j | 0 <= i < j < |r|
      ensures r[i].trendAt.Some? && r[j].trendAt.Some? && r[i].trendAt.value <= r[j].trendAt.value
    {
      assert r[j] == s[j - 1] && r[j] in s;
      if i > 0 {
        assert r[i] == s[i - 1];
      }
    }
  }

  /** The elements whose bucket instant is `d`, in their order in `s`. */
  function WithTrendAt(s: seq<Trends>, d: Date): (r: seq<Trends>)
    ensures |r| <= |s|
  {
    if s == [] then []
    else (if s[0].trendAt == Some(d) then [s[0]] else []) + WithTrendAt(s[1..], d)
  }

  lemma {:induction false} WithTrendAtAppend(a: seq<Trends>, b: seq<Trends>, d: Date)
    ensures WithTrendAt(a + b, d) == WithTrendAt(a, d) + WithTrendAt(b, d)
  {
    if a == [] {
      assert a + b == b;
    } else {
      var head := if a[0].trendAt == Some(d) then [a[0]] else [];
      assert (a + b)[0] == a[0] && (a + b)[1..] == a[1..] + b;
      assert WithTrendAt(a + b, d) == head + WithTrendAt(a[1..] + b, d);
      WithTrendAtAppend(a[1..], b, d);
      assert WithTrendAt(a, d) == head + WithTrendAt(a[1..], d);
    }
  }

  /** Puts `t` before the first element that does not precede it, so it lands after
      every element with an earlier instant and before those with an equal one. */
  function Insert(t: Trends, s: seq<Trends>): (r: seq<Trends>)
    requires t.trendAt.Some? && AllDated(s) && SortedByTrendAt(s)
    ensures AllDated(r) && SortedByTrendAt(r)
    ensures multiset(r) == multiset(s) + multiset{t}
    ensures |r| == |s| + 1
  {
    if s == [] || t.trendAt.value <= s[0].trendAt.value then
      assert NotBefore(t.trendAt.value, s) by {
        if s != [] {
          HeadNotAfterTail(s);
          assert s == [s[0]] + s[1..];
        }
      }
      SortedCons(t, s);
      [t] + s
    else
      assert s == [s[0]] + s[1..];
      var rest := Insert(t, s[1..]);
      HeadNotAfterTail(s);
      assert NotBefore(s[0].trendAt.value, rest) by {
        forall e | e in rest
          ensures s[0].trendAt.value <= e.trendAt.value
        {
          assert e in multiset(rest);
        }
      }
      SortedCons(s[0], rest);
      [s[0]] + rest
  }

  /** `Collections.sort` of the bucket list: ascending by `compareTo`. */
  function Sort(s: seq<Trends>): (r: seq<Trends>)
    requires AllDated(s)
    ensures AllDated(r) && SortedByTrendAt(r)
    ensures multiset(r) == multiset(s)
    ensures |r| == |s|
  {
    if s == [] then []
    else
      assert s == [s[0]] + s[1..];
      Insert(s[0], Sort(s[1..]))
  }

  lemma {:induction false} InsertKeepsTies(t: Trends, s: seq<Trends>, d: Date)
    requires t.trendAt.Some? && AllDated(s) && SortedByTrendAt(s)
    ensures WithTrendAt(Insert(t, s), d) == WithTrendAt([t], d) + WithTrendAt(s, d)
  {
    if s == [] || t.trendAt.value <= s[0].trendAt.value {
      WithTrendAtAppend([t], s, d);
    } else {
      InsertKeepsTies(t, s[1..], d);
      WithTrendAtAppend([s[0]], Insert(t, s[1..]), d);
      assert s == [s[0]] + s[1..];
      WithTrendAtAppend([s[0]], s[1..], d);
      assert WithTrendAt([t], d) == [] || WithTrendAt([s[0]], d) == [];
    }
  }

  /** The sort is stable, as `Collections.sort` promises: records sharing a bucket
      instant keep the order they had. */
  lemma {:induction false} SortIsStable(s: seq<Trends>, d: Date)
    requires AllDated(s)
    ensures WithTrendAt(Sort(s), d) == WithTrendAt(s, d)
  {
    if s != [] {
      SortIsStable(s[1..], d);
      InsertKeepsTies(s[0], Sort(s[1..]), d);
      assert s == [s[0]] + s[1..];
      WithTrendAtAppend([s[0]], s[1..], d);
    }
  }
}
