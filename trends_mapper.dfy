/** `createTrend`, `createTrends`, `createTrendsList` and `parseTrendsDate`: the trending
    topics endpoints. A trends list response holds one array of trends per time bucket,
    keyed by the bucket's instant written in one of three formats told apart by their
    length; the mapper keeps the buckets whose key has a known length and sorts them
    by instant. */
module TrendsMapper {
  import opened Wrappers
  import opened JavaNumbers
  import opened OrgJson
  import opened ParseUtil
  import opened ValueTypes
  import opened TrendsData
  import opened JsonArrays

  // ---- one trend ----

  /** `createTrend`: the name is required; the url and the query are read only when
      they are not null, and are then required to have a text. */
  function CreateTrend(json: Json): (r: Result<Trend>)
    ensures r.Success? ==> GetString(json, "name") == Success(r.value.name)
    ensures r.Success? ==> (r.value.url.None? <==> IsNull(json, "url"))
    ensures r.Success? ==> (r.value.query.None? <==> IsNull(json, "query"))
    ensures GetString(json, "name").Failure? ==> r.Failure?
  {
    var name :- GetString(json, "name");
    var url :- if IsNull(json, "url") then Success(None) else (var u :- GetString(json, "url"); Success(Some(u)));
    var query :- if IsNull(json, "query") then Success(None) else (var q :- GetString(json, "query"); Success(Some(q)));
    Success(Trend(name, url, query))
  }

  /** The JSON object a trend is sent as, a null standing for an absent url or query. */
  function TrendJson(t: Trend): Json {
    JObj([("name", JStr(t.name)),
          ("url", if t.url.Some? then JStr(t.url.value) else JNull),
          ("query", if t.query.Some? then JStr(t.query.value) else JNull)])
  }

  /** Every trend is read back from the object it is sent as. */
  lemma CreateTrendOfTrendJson(t: Trend)
    ensures CreateTrend(TrendJson(t)) == Success(t)
  {
    var ms := TrendJson(t).members;
    FindAt(ms, 0, "name");
    FindAt(ms, 1, "url");
    FindAt(ms, 2, "query");
  }

  /** `jsonArrayToTrendArray`: a new array with one trend per element, filled in order;
      the first element that is not an object or is not a trend ends it with its error. */
  method TrendArray(items: seq<Json>) returns (r: Result<array<Trend>>)
    ensures r.Failure? ==> MapObjects(items, CreateTrend) == Failure(r.error)
    ensures r.Success? ==> fresh(r.value) && MapObjects(items, CreateTrend) == Success(r.value[..])
  {
    var trends := new Trend[|items|];
    var i := 0;
    while i < |items|
      invariant 0 <= i <= |items|
      invariant MapObjects(items[..i], CreateTrend) == Success(trends[..i])
    {
      MapObjectsStep(items, i, CreateTrend, trends[..i]);
      var obj := ElementObject(items, i);
      if obj.Failure? {
        MapObjectsStopsAt(items, i, CreateTrend, obj.error);
        return Failure(obj.error);
      }
      var trend := CreateTrend(obj.value);
      if trend.Failure? {
        MapObjectsStopsAt(items, i, CreateTrend, trend.error);
        return Failure(trend.error);
      }
      assert trends[..i] + [trend.value] == trends[..i + 1][i := trend.value];
      trends[i] := trend.value;
      i := i + 1;
    }
    assert items[..i] == items && trends[..i] == trends[..];
    r := Success(trends);
  }

  // ---- the as_of instant ----

  /** `parseTrendsDate`: a ten-character text is a count of seconds since the epoch,
      read by `Long.parseLong` (whose NumberFormatException the mappers do not catch);
      any other text is a date in the trends' own format. */
  function ParseTrendsDate(s: string, dates: DateParser): (r: Result<Date>)
    ensures |s| == 10 ==> (r.Success? <==> ParseLong(s).Some?)
    ensures |s| != 10 ==> (r.Success? <==> dates(s, TrendsAsOfDate).Some?)
  {
    if |s| == 10 then
      match ParseLong(s)
      case Some(seconds) => Success(seconds * 1000)
      case None => Failure(NumberFormat)
    else ParseDate(s, TrendsAsOfDate, dates)
  }

  /** A ten-digit epoch-seconds `as_of` is read as that many seconds in milliseconds,
      whatever the date parser does. */
  lemma EpochSecondsAsOf(seconds: nat, dates: DateParser)
    requires Pow10(9) <= seconds < Pow10(10)
    ensures ParseTrendsDate(Decimal(seconds), dates) == Success(seconds * 1000)
  {
    DigitsLength(seconds, 10);
    assert Pow10(10) == 10000000000;
    ParseDecimalOfDecimal(seconds, LONG_MIN, LONG_MAX);
  }

  // ---- createTrends ----

  /** `createTrends`, on values: the `as_of` instant, then the `trends` array. The one
      record uses `as_of` both as its computation instant and as its bucket instant. */
  function TrendsOf(res: Response, dates: DateParser): (r: Result<Trends>)
  {
    var json :- res.AsJSONObject();
    var asOfText :- GetString(json, "as_of");
    var asOf :- ParseTrendsDate(asOfText, dates);
    var items :- GetJSONArray(json, "trends");
    var trends :- MapObjects(items, CreateTrend);
    Success(Trends(Some(asOf), Some(asOf), Some(trends)))
  }

  /** A record from `createTrends` is stamped twice with the same instant, and holds one
      trend per element of the `trends` array, each read from that element. */
  lemma TrendsOfShape(res: Response, dates: DateParser)
    requires TrendsOf(res, dates).Success?
    ensures var t := TrendsOf(res, dates).value;
      && t.asOf.Some? && t.asOf == t.trendAt
      && t.trends.Some? && GetJSONArray(res.body, "trends").Success?
      && |t.trends.value| == |GetJSONArray(res.body, "trends").value|
      && forall k :: 0 <= k < |t.trends.value| ==>
           CreateTrend(GetJSONArray(res.body, "trends").value[k]) == Success(t.trends.value[k])
  {
    var items := GetJSONArray(res.body, "trends").value;
    MapObjectsSucceeds(items, CreateTrend);
  }

  /** `createTrends(Response)`. */
  method CreateTrends(res: Response, dates: DateParser) returns (r: Result<Trends>)
    ensures r == TrendsOf(res, dates)
  {
    var json :- res.AsJSONObject();
    var asOfText :- GetString(json, "as_of");
    var asOf :- ParseTrendsDate(asOfText, dates);
    var items :- GetJSONArray(json, "trends");
    var trendsArray :- TrendArray(items);
    r := Success(Trends(Some(asOf), Some(asOf), Some(trendsArray[..])));
  }

  // ---- createTrendsList ----

  /** The bucket format a key's length selects: 19 characters an hourly bucket, 16 a
      daily one, 10 a weekly one; no other length is a bucket. */
  function BucketFormat(key: string): (r: Option<DateFormat>)
    ensures r.Some? <==> |key| == 19 || |key| == 16 || |key| == 10
  {
    if |key| == 19 then Some(HourlyBucket)
    else if |key| == 16 then Some(DailyBucket)
    else if |key| == 10 then Some(WeeklyBucket)
    else None
  }

  /** One turn of the key loop: the key's member must be an array of trends, whatever
      the key's length; a key of a bucket length must also parse as the bucket instant. */
  function BucketOf(trendsJson: Json, key: string, asOf: Date, dates: DateParser): (r: Result<Option<Trends>>)
    ensures r.Success? ==> (r.value.Some? <==> BucketFormat(key).Some?)
    ensures r.Success? && r.value.Some? ==>
      && r.value.value.asOf == Some(asOf)
      && r.value.value.trendAt == dates(key, BucketFormat(key).value)
      && r.value.value.trendAt.Some?
  {
    var items :- GetJSONArray(trendsJson, key);
    var trends :- MapObjects(items, CreateTrend);
    match BucketFormat(key)
    case None => Success(None)
    case Some(format) =>
      var trendAt :- ParseDate(key, format, dates);
      Success(Some(Trends(Some(asOf), Some(trendAt), Some(trends))))
  }

  /** How many of `keys` have a bucket length. */
  function BucketKeyCount(keys: seq<string>): nat {
    if keys == [] then 0
    else BucketKeyCount(keys[..|keys| - 1]) + (if BucketFormat(keys[|keys| - 1]).Some? then 1 else 0)
  }

  /** The key loop on values: the buckets of `keys` in key order, or the error of the
      first key that fails. */
  function Buckets(trendsJson: Json, keys: seq<string>, asOf: Date, dates: DateParser): (r: Result<seq<Trends>>)
    ensures r.Success? ==> AllDated(r.value) && |r.value| == BucketKeyCount(keys)
    ensures r.Success? ==> forall t :: t in r.value ==> t.asOf == Some(asOf)
  {
    if keys == [] then Success([])
    else
      var init :- Buckets(trendsJson, keys[..|keys| - 1], asOf, dates);
      var bucket :- BucketOf(trendsJson, keys[|keys| - 1], asOf, dates);
      Success(init + if bucket.Some? then [bucket.value] else [])
  }

  /** One more turn of the key loop. */
  lemma BucketsStep(trendsJson: Json, keys: seq<string>, i: nat, asOf: Date, dates: DateParser, done: seq<Trends>)
    requires i < |keys| && Buckets(trendsJson, keys[..i], asOf, dates) == Success(done)
    ensures Buckets(trendsJson, keys[..i + 1], asOf, dates) ==
      (var bucket :- BucketOf(trendsJson, keys[i], asOf, dates);
       Success(done + if bucket.Some? then [bucket.value] else []))
  {
    assert keys[..i + 1][..i] == keys[..i];
  }

  /** A failing key after a successful prefix is the failure of the whole loop. */
  lemma {:induction false} BucketsStopsAt(trendsJson: Json, keys: seq<string>, i: nat, asOf: Date, dates: DateParser, e: Error)
    requires i < |keys| && Buckets(trendsJson, keys[..i], asOf, dates).Success?
    requires Buckets(trendsJson, keys[..i + 1], asOf, dates) == Failure(e)
    ensures Buckets(trendsJson, keys, asOf, dates) == Failure(e)
    decreases |keys| - i
  {
    if i + 1 == |keys| {
      assert keys[..i + 1] == keys;
    } else {
      var longer := keys[..|keys| - 1];
      assert longer[..i] == keys[..i] && longer[..i + 1] == keys[..i + 1];
      BucketsStopsAt(trendsJson, longer, i, asOf, dates, e);
    }
  }

  /** The keys of an object in the order `keys()` visits them. */
  function Keys(obj: Json): (r: seq<string>)
    requires obj.JObj?
    ensures |r| == |obj.members|
    ensures forall i :: 0 <= i < |r| ==> r[i] == obj.members[i].0
  {
    seq(|obj.members|, i requires 0 <= i < |obj.members| => obj.members[i].0)
  }

  /** `createTrendsList`, on values: the `as_of` instant, the `trends` object, one bucket
      per key of a bucket length, then `Collections.sort`. */
  function TrendsListOf(res: Response, dates: DateParser): (r: Result<seq<Trends>>)
  {
    var json :- res.AsJSONObject();
    var asOfText :- GetString(json, "as_of");
    var asOf :- ParseTrendsDate(asOfText, dates);
    var trendsJson :- GetJSONObject(json, "trends");
    var buckets :- Buckets(trendsJson, Keys(trendsJson), asOf, dates);
    Success(Sort(buckets))
  }

  /** The list `createTrendsList` returns is in ascending bucket order, all of it stamped
      with the one `as_of` instant, with exactly one record per key of a bucket length:
      the records of the key loop, reordered. */
  lemma TrendsListShape(res: Response, dates: DateParser)
    requires TrendsListOf(res, dates).Success?
    ensures var json := res.body;
      && GetString(json, "as_of").Success?
      && ParseTrendsDate(GetString(json, "as_of").value, dates).Success?
      && GetJSONObject(json, "trends").Success?
      && var asOf := ParseTrendsDate(GetString(json, "as_of").value, dates).value;
      && var trendsJson := GetJSONObject(json, "trends").value;
      && var list := TrendsListOf(res, dates).value;
      && AllDated(list) && SortedByTrendAt(list)
      && (forall t :: t in list ==> t.asOf == Some(asOf))
      && |list| == BucketKeyCount(Keys(trendsJson))
      && Buckets(trendsJson, Keys(trendsJson), asOf, dates).Success?
      && multiset(list) == multiset(Buckets(trendsJson, Keys(trendsJson), asOf, dates).value)
  {
    var json := res.body;
    var asOf := ParseTrendsDate(GetString(json, "as_of").value, dates).value;
    var trendsJson := GetJSONObject(json, "trends").value;
    var buckets := Buckets(trendsJson, Keys(trendsJson), asOf, dates).value;
    var list := Sort(buckets);
    forall t | t in list
      ensures t.asOf == Some(asOf)
    {
      assert t in multiset(list);
      assert t in multiset(buckets);
    }
  }

  /** Keys of any other length are dropped without a trace: when no key has a bucket
      length the list is empty. An empty `trends` object is the special case. */
  lemma NoBucketKeysNoTrends(res: Response, dates: DateParser)
    requires TrendsListOf(res, dates).Success?
    requires forall m :: m in GetJSONObject(res.body, "trends").value.members ==> BucketFormat(m.0).None?
    ensures TrendsListOf(res, dates) == Success([])
  {
    var json := res.body;
    var asOf := ParseTrendsDate(GetString(json, "as_of").value, dates).value;
    var trendsJson := GetJSONObject(json, "trends").value;
    var keys := Keys(trendsJson);
    NoBucketKeysCountZero(keys);
    TrendsListShape(res, dates);
  }

  lemma {:induction false} NoBucketKeysCountZero(keys: seq<string>)
    requires forall k :: k in keys ==> BucketFormat(k).None?
    ensures BucketKeyCount(keys) == 0
  {
    if keys != [] {
      assert keys[|keys| - 1] in keys;
      NoBucketKeysCountZero(keys[..|keys| - 1]);
    }
  }

  /** The loop body of `createTrendsList` for one key: the member array, its trends, and
      for a key of a bucket length its instant. */
  method NextBucket(trendsJson: Json, key: string, asOf: Date, dates: DateParser) returns (r: Result<Option<Trends>>)
    ensures r == BucketOf(trendsJson, key, asOf, dates)
  {
    var items :- GetJSONArray(trendsJson, key);
    var trendsArray :- TrendArray(items);
    if |key| == 19 {
      var trendAt :- ParseDate(key, HourlyBucket, dates);
      r := Success(Some(Trends(Some(asOf), Some(trendAt), Some(trendsArray[..]))));
    } else if |key| == 16 {
      var trendAt :- ParseDate(key, DailyBucket, dates);
      r := Success(Some(Trends(Some(asOf), Some(trendAt), Some(trendsArray[..]))));
    } else if |key| == 10 {
      var trendAt :- ParseDate(key, WeeklyBucket, dates);
      r := Success(Some(Trends(Some(asOf), Some(trendAt), Some(trendsArray[..]))));
    } else {
      r := Success(None);
    }
  }

  /** One turn of the key loop: the bucket of key `i`, if it has one, added to those
      of the keys before it. */
  method AddBucket(trendsJson: Json, keys: seq<string>, i: nat, asOf: Date, dates: DateParser, trends: seq<Trends>)
    returns (r: Result<seq<Trends>>)
    requires i < |keys| && Buckets(trendsJson, keys[..i], asOf, dates) == Success(trends)
    ensures r == Buckets(trendsJson, keys[..i + 1], asOf, dates)
  {
    BucketsStep(trendsJson, keys, i, asOf, dates, trends);
    var bucket :- NextBucket(trendsJson, keys[i], asOf, dates);
    r := Success(trends + if bucket.Some? then [bucket.value] else []);
  }

  /** The `while (ite.hasNext())` loop of `createTrendsList`: the keys in order, one
      bucket added per key of a bucket length. */
  method CollectBuckets(trendsJson: Json, keys: seq<string>, asOf: Date, dates: DateParser)
    returns (r: Result<seq<Trends>>)
    ensures r == Buckets(trendsJson, keys, asOf, dates)
  {
    var trends: seq<Trends> := [];
    var i := 0;
    while i < |keys|
      invariant 0 <= i <= |keys|
      invariant Buckets(trendsJson, keys[..i], asOf, dates) == Success(trends)
    {
      var next := AddBucket(trendsJson, keys, i, asOf, dates, trends);
      if next.Failure? {
        BucketsStopsAt(trendsJson, keys, i, asOf, dates, next.error);
        return Failure(next.error);
      }
      trends := next.value;
      i := i + 1;
    }
    assert keys[..i] == keys;
    r := Success(trends);
  }

  /** `createTrendsList(Response)`: the key loop, then `Collections.sort`. */
  method CreateTrendsList(res: Response, dates: DateParser) returns (r: Result<seq<Trends>>)
    ensures r == TrendsListOf(res, dates)
  {
    var json :- res.AsJSONObject();
    var asOfText :- GetString(json, "as_of");
    var asOf :- ParseTrendsDate(asOfText, dates);
    var trendsJson :- GetJSONObject(json, "trends");
    var trends :- CollectBuckets(trendsJson, Keys(trendsJson), asOf, dates);
    r := Success(Sort(trends));
  }
}
