/** The search side of the mapper: `createTweet`, `createQueryResult` and the saved
    searches. A tweet and a saved search are values; a query result is a `QueryResult`
    object the mapper fills by setter calls. */
module SearchMapper {
  import opened Wrappers
  import opened JavaNumbers
  import opened OrgJson
  import opened ParseUtil
  import opened ValueTypes
  import opened RateLimits
  import opened JsonArrays
  import opened Search

  // ---- tweets ----

  /** The addressee block of `createTweet`: `to_user_id` through the strict `getInt`,
      then `to_user` through the strict `getString`, inside a try block that swallows
      the error. A failed id keeps the defaults 0 and null; a failed name keeps only the
      null name. */
  function ToUserOf(json: Json): (r: (int, Option<string>))
    ensures OrgJson.GetInt(json, "to_user_id").Failure? ==> r == (0, None)
    ensures OrgJson.GetInt(json, "to_user_id").Success? ==> r.0 == OrgJson.GetInt(json, "to_user_id").value
    ensures r.1.Some? <==> OrgJson.GetInt(json, "to_user_id").Success? && GetString(json, "to_user").Success?
    ensures r.1.Some? ==> r.1.value == GetString(json, "to_user").value
  {
    match OrgJson.GetInt(json, "to_user_id")
    case Failure(_) => (0, None)
    case Success(toUserId) =>
      match GetString(json, "to_user")
      case Failure(_) => (toUserId, None)
      case Success(toUser) => (toUserId, Some(toUser))
  }

  /** `iso_language_code` through the strict `getString`, whose error is swallowed. */
  function LanguageOf(json: Json): (r: Option<string>)
    ensures r.Some? <==> GetString(json, "iso_language_code").Success?
    ensures r.Some? ==> r.value == GetString(json, "iso_language_code").value
  {
    match GetString(json, "iso_language_code")
    case Success(code) => Some(code)
    case Failure(_) => None
  }

  /** `createTweet`: the sender's name, the id, the sender's id and the creation date
      are required (the date in the search pattern); the text, source and image URL are
      tolerant; the addressee and the language are optional. */
  function CreateTweet(json: Json, dates: DateParser): (r: Result<Tweet>)
    ensures r.Success? <==>
      && GetString(json, "from_user").Success?
      && OrgJson.GetLong(json, "id").Success?
      && OrgJson.GetInt(json, "from_user_id").Success?
      && GetString(json, "created_at").Success?
      && dates(GetString(json, "created_at").value, SearchDate).Some?
    ensures r.Success? ==> IsLong(r.value.id) && IsInt(r.value.fromUserId)
    ensures r.Success? ==> Some(r.value.createdAt) == dates(GetString(json, "created_at").value, SearchDate)
    ensures r.Failure? && GetString(json, "created_at").Success? ==> r.error == JsonError || r.error == BadDate
  {
    var text := GetText("text", json);
    var (toUserId, toUser) := ToUserOf(json);
    var fromUser :- GetString(json, "from_user");
    var id :- OrgJson.GetLong(json, "id");
    var fromUserId :- OrgJson.GetInt(json, "from_user_id");
    var isoLanguageCode := LanguageOf(json);
    var source := GetText("source", json);
    var profileImageUrl := GetText("profile_image_url", json);
    var createdAtText :- GetString(json, "created_at");
    var createdAt :- ParseDate(createdAtText, SearchDate, dates);
    Success(Tweet(text, toUserId, toUser, fromUser, id, fromUserId, isoLanguageCode, source, profileImageUrl, createdAt))
  }

  /** A JSON null `to_user_id` (a tweet addressed to nobody) leaves the id 0 and drops
      any `to_user` there is. */
  lemma NullToUserIdDropsToUser(json: Json, dates: DateParser)
    requires CreateTweet(json, dates).Success? && IsNull(json, "to_user_id")
    ensures CreateTweet(json, dates).value.toUserId == 0 && CreateTweet(json, dates).value.toUser == None
  {
  }

  /** A tweet without `to_user` keeps its `to_user_id`; one without a language code has
      none; neither is an error. */
  lemma OptionalTweetMembers(json: Json, dates: DateParser, toUserId: int)
    requires CreateTweet(json, dates).Success? && IsInt(toUserId)
    requires Opt(json, "to_user_id") == Some(JNum(toUserId)) && Opt(json, "to_user").None?
    requires Opt(json, "iso_language_code").None?
    ensures var t := CreateTweet(json, dates).value;
      t.toUserId == toUserId && t.toUser == None && t.isoLanguageCode == None
  {
  }

  /** The member a text field is sent as: a JSON string, or nothing for null. */
  function TextMember(v: Option<string>): (r: Option<Json>)
    ensures r.Some? <==> v.Some?
  {
    if v.Some? then Some(JStr(v.value)) else None
  }

  lemma AddresseeOfMembers(json: Json, t: Tweet)
    requires IsInt(t.toUserId)
    requires Opt(json, "to_user_id") == Some(JNum(t.toUserId)) && Opt(json, "to_user") == TextMember(t.toUser)
    ensures ToUserOf(json) == (t.toUserId, t.toUser)
  {
  }

  /** Whatever the order of its members, a search result that sends each field of `t`
      as a JSON number or string (the addressee's id present, the numbers in range, the
      date as a text the search pattern reads as `t`'s date) is read back as `t`. */
  lemma CreateTweetOfMembers(json: Json, t: Tweet, createdAtText: string, dates: DateParser)
    requires IsInt(t.toUserId) && IsLong(t.id) && IsInt(t.fromUserId)
    requires Opt(json, "text") == TextMember(t.text)
    requires Opt(json, "to_user_id") == Some(JNum(t.toUserId)) && Opt(json, "to_user") == TextMember(t.toUser)
    requires Opt(json, "from_user") == Some(JStr(t.fromUser))
    requires Opt(json, "id") == Some(JNum(t.id)) && Opt(json, "from_user_id") == Some(JNum(t.fromUserId))
    requires Opt(json, "iso_language_code") == TextMember(t.isoLanguageCode)
    requires Opt(json, "source") == TextMember(t.source)
    requires Opt(json, "profile_image_url") == TextMember(t.profileImageUrl)
    requires Opt(json, "created_at") == Some(JStr(createdAtText)) && dates(createdAtText, SearchDate) == Some(t.createdAt)
    ensures CreateTweet(json, dates) == Success(t)
  {
    AddresseeOfMembers(json, t);
  }

  // ---- query results ----

  /** The envelope of a search result page. */
  datatype QueryFields = QueryFields(
    sinceId: int,
    maxId: int,
    refreshUrl: Option<string>,
    resultsPerPage: int,
    warning: Option<string>,
    completedIn: real,
    page: int,
    query: Option<string>)

  /** A search result page, as a value. */
  datatype QueryPage = QueryPage(fields: QueryFields, tweets: seq<Tweet>)

  /** The envelope reads of `createQueryResult`: the ids, the page size, the timing and
      the page number are required, the texts tolerant. */
  function ReadQueryFields(json: Json): (r: Result<QueryFields>)
    ensures r.Success? <==>
      && OrgJson.GetLong(json, "since_id").Success? && OrgJson.GetLong(json, "max_id").Success?
      && OrgJson.GetInt(json, "results_per_page").Success? && GetDouble(json, "completed_in").Success?
      && OrgJson.GetInt(json, "page").Success?
    ensures r.Success? ==>
      && IsLong(r.value.sinceId) && IsLong(r.value.maxId) && IsInt(r.value.resultsPerPage) && IsInt(r.value.page)
    ensures r.Failure? ==> r.error == JsonError
    ensures r.Success? ==>
      && r.value.sinceId == OrgJson.GetLong(json, "since_id").value
      && r.value.maxId == OrgJson.GetLong(json, "max_id").value
      && r.value.refreshUrl == GetText("refresh_url", json)
      && r.value.resultsPerPage == OrgJson.GetInt(json, "results_per_page").value
      && r.value.warning == GetText("warning", json)
      && r.value.completedIn == GetDouble(json, "completed_in").value
      && r.value.page == OrgJson.GetInt(json, "page").value
      && r.value.query == GetText("query", json)
  {
    var sinceId :- OrgJson.GetLong(json, "since_id");
    var maxId :- OrgJson.GetLong(json, "max_id");
    var refreshUrl := GetText("refresh_url", json);
    var resultsPerPage :- OrgJson.GetInt(json, "results_per_page");
    var warning := GetText("warning", json);
    var completedIn :- GetDouble(json, "completed_in");
    var page :- OrgJson.GetInt(json, "page");
    var query := GetText("query", json);
    Success(QueryFields(sinceId, maxId, refreshUrl, resultsPerPage, warning, completedIn, page, query))
  }

  /** `createTweet` as the element mapping of the `results` loop. */
  function TweetMapping(dates: DateParser): Json -> Result<Tweet> {
    (json: Json) => CreateTweet(json, dates)
  }

  /** `createQueryResult`, on values: the body object, its envelope, then each element of
      `results`. */
  function QueryResultOf(res: Response, dates: DateParser): (r: Result<QueryPage>)
  {
    var json :- res.AsJSONObject();
    var fields :- ReadQueryFields(json);
    var items :- GetJSONArray(json, "results");
    var tweets :- MapObjects(items, TweetMapping(dates));
    Success(QueryPage(fields, tweets))
  }

  /** A page holds one tweet per element of `results`, in order, each the mapping of its
      element; a single element that does not map fails the page. */
  lemma QueryResultShape(res: Response, dates: DateParser)
    ensures QueryResultOf(res, dates).Success? <==>
      && res.body.JObj? && ReadQueryFields(res.body).Success? && GetJSONArray(res.body, "results").Success?
      && forall k :: 0 <= k < |GetJSONArray(res.body, "results").value| ==>
           var item := GetJSONArray(res.body, "results").value[k];
           item.JObj? && CreateTweet(item, dates).Success?
    ensures QueryResultOf(res, dates).Success? ==>
      var items := GetJSONArray(res.body, "results").value;
      var page := QueryResultOf(res, dates).value;
      && page.fields == ReadQueryFields(res.body).value
      && |page.tweets| == |items|
      && forall k :: 0 <= k < |items| ==> CreateTweet(items[k], dates) == Success(page.tweets[k])
  {
    if res.body.JObj? && ReadQueryFields(res.body).Success? && GetJSONArray(res.body, "results").Success? {
      MapObjectsSucceeds(GetJSONArray(res.body, "results").value, TweetMapping(dates));
    }
  }

  /** A page without results is still a page when its envelope is complete. */
  lemma EmptyResultsPage(res: Response, dates: DateParser)
    requires res.body.JObj? && ReadQueryFields(res.body).Success?
    requires Opt(res.body, "results") == Some(JArr([]))
    ensures QueryResultOf(res, dates) == Success(QueryPage(ReadQueryFields(res.body).value, []))
  {
  }

  predicate QueryHolds(q: QueryResult, p: QueryPage)
    reads q
  {
    && q.sinceId == p.fields.sinceId && q.maxId == p.fields.maxId
    && q.refreshUrl == p.fields.refreshUrl && q.resultsPerPage == p.fields.resultsPerPage
    && q.warning == p.fields.warning && q.completedIn == p.fields.completedIn
    && q.page == p.fields.page && q.query == p.fields.query
    && q.tweets == Some(p.tweets)
  }

  /** The envelope setter calls of `createQueryResult`, each after its read. */
  method SetEnvelope(q: QueryResult, json: Json) returns (r: Result<QueryFields>)
    modifies q`sinceId, q`maxId, q`refreshUrl, q`resultsPerPage, q`warning, q`completedIn, q`page, q`query
    ensures r == ReadQueryFields(json)
    ensures r.Success? ==>
      && q.sinceId == r.value.sinceId && q.maxId == r.value.maxId
      && q.refreshUrl == r.value.refreshUrl && q.resultsPerPage == r.value.resultsPerPage
      && q.warning == r.value.warning && q.completedIn == r.value.completedIn
      && q.page == r.value.page && q.query == r.value.query
  {
    var sinceId :- OrgJson.GetLong(json, "since_id");
    q.SetSinceId(sinceId);
    var maxId :- OrgJson.GetLong(json, "max_id");
    q.SetMaxId(maxId);
    var refreshUrl := GetText("refresh_url", json);
    q.SetRefreshUrl(refreshUrl);
    var resultsPerPage :- OrgJson.GetInt(json, "results_per_page");
    q.SetResultsPerPage(resultsPerPage);
    var warning := GetText("warning", json);
    q.SetWarning(warning);
    var completedIn :- GetDouble(json, "completed_in");
    q.SetCompletedIn(completedIn);
    var page :- OrgJson.GetInt(json, "page");
    q.SetPage(page);
    var query := GetText("query", json);
    q.SetQuery(query);
    r := Success(QueryFields(sinceId, maxId, refreshUrl, resultsPerPage, warning, completedIn, page, query));
  }

  /** `createQueryResult(Response)`: a new `QueryResult`, its envelope set read by read,
      then its tweets collected by the `results` loop. */
  method CreateQueryResult(res: Response, dates: DateParser) returns (r: Result<QueryResult>)
    ensures r.Failure? <==> QueryResultOf(res, dates).Failure?
    ensures r.Failure? ==> r.error == QueryResultOf(res, dates).error
    ensures r.Success? ==> fresh(r.value) && QueryHolds(r.value, QueryResultOf(res, dates).value)
  {
    var json :- res.AsJSONObject();
    var result := new QueryResult();
    var fields :- SetEnvelope(result, json);
    var items :- GetJSONArray(json, "results");
    var tweets :- MapEach(items, TweetMapping(dates));
    result.SetTweets(Some(tweets));
    r := Success(result);
  }

  // ---- saved searches ----

  /** `createSavedSearch(JSONObject)`: the creation date through the strict `getString`
      and the status pattern, the texts tolerant, `position` and `id` through the
      tolerant `getInt` (-1 when absent). No rate-limit status yet. */
  function SavedSearchOf(json: Json, dates: DateParser): (r: Result<SavedSearch>)
    ensures r.Success? <==>
      && GetString(json, "created_at").Success?
      && dates(GetString(json, "created_at").value, StatusDate).Some?
      && ParseUtil.GetInt("position", json).Success? && ParseUtil.GetInt("id", json).Success?
    ensures r.Success? ==> r.value.rateLimitStatus == None && IsInt(r.value.position) && IsInt(r.value.id)
    ensures r.Success? && IsNull(json, "position") ==> r.value.position == -1
  {
    var createdAtText :- GetString(json, "created_at");
    var createdAt :- ParseDate(createdAtText, StatusDate, dates);
    var query := GetText("query", json);
    var position :- ParseUtil.GetInt("position", json);
    var name := GetText("name", json);
    var id :- ParseUtil.GetInt("id", json);
    Success(SavedSearch(createdAt, query, position, name, id, None))
  }

  /** The tolerant `getInt` reads an `int` sent as a number or as its decimal text. */
  lemma IntMemberReads(json: Json, key: string, n: int)
    requires IsInt(n)
    requires Opt(json, key) == Some(JNum(n)) || Opt(json, key) == Some(JStr(Decimal(n)))
    ensures ParseUtil.GetInt(key, json) == Success(n)
  {
    ParseDecimalOfDecimal(n, INT_MIN, INT_MAX);
  }

  /** Whatever the order of its members, a saved search that sends each field of `s`
      (the date as a text the status pattern reads as `s`'s date) is read back as `s`,
      without a rate-limit status. Position and id may also be sent as decimal text. */
  lemma SavedSearchOfMembers(json: Json, s: SavedSearch, createdAtText: string, dates: DateParser)
    requires IsInt(s.position) && IsInt(s.id) && s.rateLimitStatus == None
    requires Opt(json, "created_at") == Some(JStr(createdAtText)) && dates(createdAtText, StatusDate) == Some(s.createdAt)
    requires Opt(json, "query") == TextMember(s.query) && Opt(json, "name") == TextMember(s.name)
    requires Opt(json, "position") == Some(JNum(s.position)) || Opt(json, "position") == Some(JStr(Decimal(s.position)))
    requires Opt(json, "id") == Some(JNum(s.id)) || Opt(json, "id") == Some(JStr(Decimal(s.id)))
    ensures SavedSearchOf(json, dates) == Success(s)
  {
    IntMemberReads(json, "position", s.position);
    IntMemberReads(json, "id", s.id);
  }

  /** `createSavedSearch(Response)`: the headers first, then the body, then the
      rate-limit status set on the result. */
  function SavedSearchOfResponse(res: Response, now: int, dates: DateParser): (r: Result<SavedSearch>)
    ensures r.Success? <==>
      FromHeaders(res, now).Success? && res.body.JObj? && SavedSearchOf(res.body, dates).Success?
    ensures r.Success? ==>
      r.value == SavedSearchOf(res.body, dates).value.(rateLimitStatus := FromHeaders(res, now).value)
    ensures FromHeaders(res, now).Failure? ==> r == Failure(FromHeaders(res, now).error)
  {
    var rateLimit :- FromHeaders(res, now);
    var json :- res.AsJSONObject();
    var result :- SavedSearchOf(json, dates);
    Success(result.(rateLimitStatus := rateLimit))
  }

  /** `createSavedSearch(JSONObject)` as the element mapping of a list. */
  function SavedSearchMapping(dates: DateParser): Json -> Result<SavedSearch> {
    (json: Json) => SavedSearchOf(json, dates)
  }

  /** `createSavedSearchList`, on values: the body must be an array, checked before the
      headers; then the elements, left to right. */
  function SavedSearchListOf(res: Response, now: int, dates: DateParser): (r: Result<ResponseList<SavedSearch>>)
  {
    var items :- res.AsJSONArray();
    var rateLimit :- FromHeaders(res, now);
    var searches :- MapObjects(items, SavedSearchMapping(dates));
    Success(ResponseList(searches, rateLimit))
  }

  /** A list holds one saved search per element, in order, each without a rate-limit
      status of its own: only the list carries the headers' status. */
  lemma SavedSearchListShape(res: Response, now: int, dates: DateParser)
    requires SavedSearchListOf(res, now, dates).Success?
    ensures var list := SavedSearchListOf(res, now, dates).value;
      && res.body.JArr? && |list.items| == |res.body.items|
      && list.rateLimitStatus == FromHeaders(res, now).value
      && forall k :: 0 <= k < |list.items| ==>
           SavedSearchOf(res.body.items[k], dates) == Success(list.items[k])
           && list.items[k].rateLimitStatus == None
  {
    MapObjectsSucceeds(res.body.items, SavedSearchMapping(dates));
  }

  /** A body that is not an array fails before the headers are looked at. */
  lemma SavedSearchListNeedsArray(res: Response, now: int, dates: DateParser)
    requires !res.body.JArr?
    ensures SavedSearchListOf(res, now, dates) == Failure(JsonError)
  {
  }

  /** `createSavedSearchList(Response)`, with its loop. */
  method CreateSavedSearchList(res: Response, now: int, dates: DateParser)
    returns (r: Result<ResponseList<SavedSearch>>)
    ensures r == SavedSearchListOf(res, now, dates)
  {
    var items :- res.AsJSONArray();
    var rateLimit :- FromHeaders(res, now);
    var searches :- MapEach(items, SavedSearchMapping(dates));
    r := Success(ResponseList(searches, rateLimit));
  }
}
