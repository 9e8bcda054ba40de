/** Values the mappers produce or consume whose Java classes are not part of this
    model: they are built once and never updated, so they are datatypes. Also the
    materialised HTTP response and the list wrappers that carry rate-limit metadata. */
module ValueTypes {
  import opened Wrappers
  import opened OrgJson
  import opened ParseUtil

  /** A point; a `double` is modelled by the exact `real` it denotes. */
  datatype GeoLocation = GeoLocation(latitude: real, longitude: real)

  datatype Trend = Trend(name: string, url: Option<string>, query: Option<string>)

  /** One search result row. `toUserId`, `toUser` and `isoLanguageCode` keep their Java
      defaults (0, null, null) when the mapper swallows the error reading them. */
  datatype Tweet = Tweet(
    text: Option<string>,
    toUserId: int,
    toUser: Option<string>,
    fromUser: string,
    id: int,
    fromUserId: int,
    isoLanguageCode: Option<string>,
    source: Option<string>,
    profileImageUrl: Option<string>,
    createdAt: Date)

  datatype RateLimitStatus = RateLimitStatus(
    hourlyLimit: int,
    remainingHits: int,
    resetTimeInSeconds: int,
    resetTime: Option<Date>)

  datatype SavedSearch = SavedSearch(
    createdAt: Date,
    query: Option<string>,
    position: int,
    name: Option<string>,
    id: int,
    rateLimitStatus: Option<RateLimitStatus>)

  /** The streaming "delete" event. */
  datatype StatusDeletionNotice = StatusDeletionNotice(statusId: int, userId: int)

  /** The part of a search query that `QueryResult(Query)` copies. */
  datatype Query = Query(sinceId: int, rpp: int, page: int)

  /** A response the transport has fully received: its body already parsed into a
      JSON tree, and its headers. */
  datatype Response = Response(body: Json, headers: map<string, string>) {

    /** `asJSONObject()`: a body that is not an object is an error. */
    function AsJSONObject(): (r: Result<Json>)
      ensures r.Success? <==> body.JObj?
      ensures r.Success? ==> r.value == body
    {
      if body.JObj? then Success(body) else Failure(JsonError)
    }

    /** `asJSONArray()`: a body that is not an array is an error. */
    function AsJSONArray(): (r: Result<seq<Json>>)
      ensures r.Success? <==> body.JArr?
      ensures r.Success? ==> body == JArr(r.value)
    {
      if body.JArr? then Success(body.items) else Failure(JsonError)
    }
  }

  /** `ResponseList<T>`: the mapped elements in input order plus the rate limit. */
  datatype ResponseList<T> = ResponseList(items: seq<T>, rateLimitStatus: Option<RateLimitStatus>)

  /** `PagableResponseList<T>`: a `ResponseList` with the two paging cursors. */
  datatype PagableResponseList<T> = PagableResponseList(
    items: seq<T>,
    rateLimitStatus: Option<RateLimitStatus>,
    previousCursor: int,
    nextCursor: int)
}
