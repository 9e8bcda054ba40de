# twitter4j response mapping, modelled in Dafny

This project models the layer of twitter4j that turns a Twitter REST response into
entity objects: `TwitterTransport`'s `create*` factories, and the entity classes they fill
in (`Status`, `User`, `DirectMessage`, `UserList`, `Relationship`, `Trends`, `IDs` and
`QueryResult`, with the `RateLimitStatus` carried by every response).

The parsed response body is a JSON value (`OrgJson.Json`). The model gives the member
lookups of org.json (`getString`, `getLong`, `getInt`, `getBoolean`, `getJSONObject`,
`getJSONArray`) and the lenient `ParseUtil` readers. For those readers, an absent or null
number reads as -1, a boolean as false, and a text or date as null.

Each factory is modelled in two parts:

- **Reading.** A pure `Map…` or `Read…` function makes every read the Java code makes and
  raises every exception it raises. Its result is a tree of plain values.
- **Building.** A `Build…` or `Create…` method allocates the entity classes and makes the
  setter calls. Its postcondition ties the new objects to that tree through a `…Holds`
  predicate.

The Java code interleaves reads and setter calls. An exception discards the half-built
object, so reading first is not observable. The entity classes keep their Java shape:
fields, setters with one-field frames, and `equals`/`hashCode`, whose
hash-consistency is proved for each class.

Lists are built by a loop over the JSON array, specified by `JsonArrays.MapObjects`. The
first element that is not an object, or that does not map, fails the whole list.
`Trends` lists are sorted the way `Collections.sort` sorts them. That sort is specified
as an insertion sort, and proved sorted, a permutation and stable.

Integer widths are explicit. Java `int` and `long` wrap-around, and truncating division,
are in `JavaNumbers`; `hashCode` arithmetic is done in 32 bits. An integer literal beyond the `long` range is kept by org.json as a `double`, so `getInt` and `getLong` saturate it instead of wrapping it (`OrgJson.NumberIn`).

The following cannot be seen from the model, so they are parameters:

| Parameter | Stands for |
|---|---|
| `now` | the clock |
| `dates` | `SimpleDateFormat` parsing |
| `doubles` | `Double.parseDouble` |
| `strHash` | `String.hashCode` |
| `statusDeepEquals` | `Status.deepEquals`, which is not part of this model |

Where the documented intent of the library and its code differ, the code is modelled.
Each such difference has a lemma stating the code's behaviour:

- A rate-limit header set is missing (null) only when a header is absent after the earlier
  ones parsed. A malformed limit header throws before the reset header is looked at
  (`RateLimits.MissingResetAfterBadLimit`).
- The seconds until reset are computed as `(int)(reset - now) / 1000`. The cast comes
  before the division, so a distance beyond the `int` range wraps
  (`RateLimits.ResetSecondsWrapsBeyondIntRange`).
- A strict `getString` on a JSON null yields the text "null", not an absent value
  (`StatusMapper.NullNameReadsAsText`, `EntityMapper.NullDescriptionReadsAsText`).
- A `retweeted_status` that is not an object is ignored rather than reported
  (`StatusMapper.NonObjectRetweetIgnored`).
- The 10-character `as_of` form of a trends date is read with `Long.parseLong`. Its
  `NumberFormatException` is not turned into a malformed-response error
  (`TrendsMapper.ParseTrendsDate`).
- Empty list bodies still fail on a malformed rate-limit header. Pagable lists need an
  object envelope (`StatusMapper.CreatePagableUserResponseList`).
- `createBlockIDs` never sets the cursors, so a block-id page always reports a next and a
  previous page (`IdsMapper.BlockIdsShape`).

## Model

| member | source | states |
|---|---|---|
| RateLimits.FromJson | src/main/java/twitter4j/impl/TwitterTransport.java:18-23 | succeeds exactly when the three tolerant counter reads and the `reset_time` date read succeed; an absent or null counter is -1; the reset instant is null exactly when `reset_time` is absent or null |
| RateLimits.FromJsonOfStatusBody | src/main/java/twitter4j/impl/TwitterTransport.java:18-23 | round trip: a status written as a rate-limit body (counters within `int`, a date text the reset pattern reads back) is read back as that status |
| RateLimits.FromJsonOfEmptyBody | src/main/java/twitter4j/impl/TwitterTransport.java:18-23 | an empty body is the all-unknown status (-1, -1, -1, null) |
| RateLimits.ResetSeconds | src/main/java/twitter4j/impl/TwitterTransport.java:46-48 | when the millisecond difference fits `int`, the result is that difference divided by 1000 with truncation toward zero |
| RateLimits.ResetSecondsExamples | src/main/java/twitter4j/impl/TwitterTransport.java:48 | truncation, not flooring: 60 000 ms and 60 999 ms ahead give 60 s, 1 500 ms in the past gives -1 s |
| RateLimits.ResetSecondsWrapsBeyondIntRange | src/main/java/twitter4j/impl/TwitterTransport.java:48 | the `(int)` cast comes before the division: a reset 2^31 ms ahead gives -2147483 s |
| RateLimits.FromHeaders | src/main/java/twitter4j/impl/TwitterTransport.java:25-53 | headers looked up in the order limit, remaining, reset: null when the limit is missing, when the remaining count is missing after the limit parsed, and when the reset is missing after both parsed; an error (always NumberFormatException) exactly when the first present header that fails to parse, in that order, does so before any missing one; a status exactly when all three are present and parse, holding the parsed counts, the reset instant reset*1000 as a `long`, and `ResetSeconds` of it against `now` |
| RateLimits.MissingResetAfterBadLimit | src/main/java/twitter4j/impl/TwitterTransport.java:32-37 | a malformed limit header is an error even when the reset header is missing: the checks run in order |
| RateLimits.FromHeadersOfQuota | src/main/java/twitter4j/impl/TwitterTransport.java:25-53 | round trip: headers carrying a quota in decimal are read back as that quota with reset instant reset*1000 |
| ParseUtil.ParseDate | src/main/java/twitter4j/impl/TwitterTransport.java:163 | succeeds exactly when the date parser accepts the text for that pattern, giving its instant |
| ParseUtil.GetInt | src/main/java/twitter4j/impl/TwitterTransport.java:74-79 | an absent or null member is -1; a numeric member within `int` is that number; a text member succeeds exactly when `Integer.parseInt` accepts it; every result is an `int` |
| ParseUtil.GetLong | src/main/java/twitter4j/impl/TwitterTransport.java:74 | as `GetInt` over the `long` range: absent or null is -1 |
| ParseUtil.GetBoolean | src/main/java/twitter4j/impl/TwitterTransport.java:71-72 | absent or null is false; a JSON boolean is itself |
| ParseUtil.GetText | src/main/java/twitter4j/impl/TwitterTransport.java:68-69 | absent or null is null; a string member is its text |
| ParseUtil.GetDate | src/main/java/twitter4j/impl/TwitterTransport.java:70 | absent or null is null; a text member succeeds exactly when the pattern reads it, giving that instant |
| StatusMapper.SplitAll | src/main/java/twitter4j/impl/TwitterTransport.java:95 | the comma-free pieces between commas; a single piece exactly when the text has no comma |
| StatusMapper.DropTrailingEmpty | src/main/java/twitter4j/impl/TwitterTransport.java:95 | a prefix of the pieces that does not end in an empty piece |
| StatusMapper.Split | src/main/java/twitter4j/impl/TwitterTransport.java:95 | `split(",")`: a text without a comma is its only piece; no piece holds a comma |
| StatusMapper.SplitAllNoComma | src/main/java/twitter4j/impl/TwitterTransport.java:95 | a comma-free text splits into itself |
| StatusMapper.SplitAllPair | src/main/java/twitter4j/impl/TwitterTransport.java:95 | two comma-free texts joined by a comma split back into the two |
| StatusMapper.GeoFromCoordinates | src/main/java/twitter4j/impl/TwitterTransport.java:94-97 | a text shorter than two characters is an index error; on success the trimmed text has at least two pieces and pieces 0 and 1 parse to the latitude and the longitude |
| StatusMapper.GeoOfTwoNumbers | src/main/java/twitter4j/impl/TwitterTransport.java:94-97 | round trip: latitude and longitude texts joined by a comma and wrapped in any two characters are read back as the two numbers |
| StatusMapper.GeoWithoutLongitude | src/main/java/twitter4j/impl/TwitterTransport.java:95-97 | a missing longitude ("[12.5,]") is an index error, since `split` drops the trailing empty piece |
| StatusMapper.GeoOf | src/main/java/twitter4j/impl/TwitterTransport.java:92-93 | a location needs `geo` to be an object |
| StatusMapper.GeoOfCoordinateArray | src/main/java/twitter4j/impl/TwitterTransport.java:91-98 | the form the service sends, `{"coordinates": [lat, long]}`, is read as that point: `getString` on the array gives its JSON text, whose brackets the trimming removes |
| StatusMapper.RetweetedJson | src/main/java/twitter4j/impl/TwitterTransport.java:102-107 | a retweeted object exactly when `retweeted_status` is non-null and an object, and it is a part of the status |
| StatusMapper.ReadStatus | src/main/java/twitter4j/impl/TwitterTransport.java:66-82 | succeeds exactly when the id, date and reply-id reads do and, for a non-negative reply id, the reply user id read does; the id, text, source, date, truncated and favorited fields are the reads of `id`, `text`, `source`, `created_at`, `truncated` and `favorited`; a reply block exactly when the reply id is >= 0, whose status id, user id and screen name are the reads of `in_reply_to_status_id`, `in_reply_to_user_id` and `in_reply_to_screen_name` |
| StatusMapper.ReadStatusOfIdOnly | src/main/java/twitter4j/impl/TwitterTransport.java:66-82 | a body holding only an id reads as that id with every tolerant field at its default and no reply |
| StatusMapper.NegativeReplyIdMeansNoReply | src/main/java/twitter4j/impl/TwitterTransport.java:74-75 | a reply id of -1 attaches no `InReplyTo` |
| StatusMapper.ReadProfile | src/main/java/twitter4j/impl/TwitterTransport.java:149-158 | succeeds exactly when the seven strict profile strings and the background-tile boolean are present; each of the eight fields is the read of its own `profile_*` member |
| StatusMapper.ReadUserNames | src/main/java/twitter4j/impl/TwitterTransport.java:138-143 | succeeds exactly when the strict `id` and the five name and text strings are present; the id is the `int` read of `id`, and name, screen name, location, description and url are the reads of `name`, `screen_name`, `location`, `description` and `url` |
| StatusMapper.ReadUserFlags | src/main/java/twitter4j/impl/TwitterTransport.java:144-147 | succeeds exactly when the three strict booleans and the followers count are present; protected, geo-enabled, verified and the followers count are the reads of `protected`, `geo_enabled`, `verified` and `followers_count` |
| StatusMapper.ReadUserCounts | src/main/java/twitter4j/impl/TwitterTransport.java:162-167 | succeeds exactly when the strict counts, `created_at` (parsed with the status pattern) and `time_zone` are present and the tolerant `utc_offset` reads; each count, the time zone and the utc offset are the reads of their members, the date is the parse of `created_at`, and an absent `utc_offset` is -1 |
| StatusMapper.ReadUser | src/main/java/twitter4j/impl/TwitterTransport.java:137-167 | succeeds exactly when the name, flag, profile and count blocks all read, and then holds exactly those four blocks |
| StatusMapper.ReadUserNeedsIdNameAndDate | src/main/java/twitter4j/impl/TwitterTransport.java:138-163 | a user without `id`, `name` or `created_at` is an error |
| StatusMapper.NullNameReadsAsText | src/main/java/twitter4j/impl/TwitterTransport.java:139 | a JSON null name is read as the text "null", not rejected |
| StatusMapper.AuthorOf | src/main/java/twitter4j/impl/TwitterTransport.java:83-89 | an author exactly when `user` is non-null, and then it is `MapUser` of the `user` object |
| StatusMapper.LocationOf | src/main/java/twitter4j/impl/TwitterTransport.java:90-101 | no location when `geo` is null or absent; otherwise it succeeds exactly when the coordinates read, giving that point |
| StatusMapper.RetweetOf | src/main/java/twitter4j/impl/TwitterTransport.java:102-107 | a retweeted status exactly when `retweeted_status` is an object, and then it is `MapStatus` of that object |
| StatusMapper.LatestStatusOf | src/main/java/twitter4j/impl/TwitterTransport.java:168-170 | a latest status exactly when `status` is non-null, and then it is `MapStatus` of the `status` object |
| StatusMapper.MapStatusShape | src/main/java/twitter4j/impl/TwitterTransport.java:65-109 | a mapped status holds its scalar reads; an author exactly when `user` is non-null, which is `MapUser` of that object; a location exactly when `geo` is non-null, which is `GeoOf` the status; a retweet exactly when `retweeted_status` is an object, which is `MapStatus` of it |
| StatusMapper.BadUserFailsStatus | src/main/java/twitter4j/impl/TwitterTransport.java:83-89 | a non-null `user` that is not an object or does not map fails the status |
| StatusMapper.NonObjectRetweetIgnored | src/main/java/twitter4j/impl/TwitterTransport.java:102-107 | a non-object `retweeted_status` is swallowed: the status is simply not a retweet |
| StatusMapper.MapUserShape | src/main/java/twitter4j/impl/TwitterTransport.java:135-187 | a mapped user holds its scalar reads and a latest status exactly when `status` is non-null, which is `MapStatus` of that object |
| StatusMapper.SetStatusScalars | src/main/java/twitter4j/impl/TwitterTransport.java:67-72 | after the six scalar setter calls the status holds the six scalars; only those fields change |
| StatusMapper.NewInReplyTo | src/main/java/twitter4j/impl/TwitterTransport.java:77-80 | a new `InReplyTo` holding the reply id, user id and screen name |
| StatusMapper.NewStatusFrom | src/main/java/twitter4j/impl/TwitterTransport.java:66-82 | a new status holding the scalars and an `InReplyTo` exactly when a reply block was read; no author, location or retweet yet |
| StatusMapper.SetNested | src/main/java/twitter4j/impl/TwitterTransport.java:83-107 | sets the author, the location and the retweeted status, and nothing else |
| StatusMapper.BuildStatus | src/main/java/twitter4j/impl/TwitterTransport.java:65-109 | a new status holding the mapped value (so `isInReply` and `isRetweet` hold exactly when the value has a reply and a retweet), with a new author and a new retweeted status holding theirs |
| StatusMapper.CreateStatus | src/main/java/twitter4j/impl/TwitterTransport.java:65-109 | fails exactly when the mapping fails, with its error; otherwise a new status holding the mapped value and no rate limit, whose author holds `MapUser` of the `user` object and whose retweeted status holds `MapStatus` of `retweeted_status` |
| StatusMapper.SetUserNames | src/main/java/twitter4j/impl/TwitterTransport.java:138-143 | after the first six setter calls the user holds the id and the five texts |
| StatusMapper.SetUserFlags | src/main/java/twitter4j/impl/TwitterTransport.java:144-147 | after the next four setter calls the user holds the three flags and the followers count |
| StatusMapper.NewProfile | src/main/java/twitter4j/impl/TwitterTransport.java:149-158 | a new profile holding the eight profile members |
| StatusMapper.SetUserCounts | src/main/java/twitter4j/impl/TwitterTransport.java:162-167 | after the setter calls following the profile the user holds the counts, the date, the offset and the time zone |
| StatusMapper.SetUserHead | src/main/java/twitter4j/impl/TwitterTransport.java:138-147 | the setter calls before the profile |
| StatusMapper.SetUserTail | src/main/java/twitter4j/impl/TwitterTransport.java:160-167 | the profile setter call and the calls after it |
| StatusMapper.NewUserFrom | src/main/java/twitter4j/impl/TwitterTransport.java:136-167 | a new user holding every scalar and a new profile; no latest status yet |
| StatusMapper.BuildUser | src/main/java/twitter4j/impl/TwitterTransport.java:135-187 | a new user holding the mapped value, with a new latest status holding its own |
| StatusMapper.CreateUser | src/main/java/twitter4j/impl/TwitterTransport.java:135-187 | fails exactly when the mapping fails, with its error; otherwise a new user holding the mapped value, whose latest status holds `MapStatus` of the `status` object |
| StatusMapper.SetStatusRateLimit | src/main/java/twitter4j/impl/TwitterTransport.java:60 | sets the rate limit and nothing else: the status, its author and its retweeted status keep holding their mapped values |
| StatusMapper.SetUserRateLimit | src/main/java/twitter4j/impl/TwitterTransport.java:131 | sets the rate limit and nothing else: the user and its latest status keep holding their mapped values |
| StatusMapper.CreateStatusOfResponse | src/main/java/twitter4j/impl/TwitterTransport.java:56-62 | a malformed rate-limit header fails first, then a non-object body; otherwise it fails exactly when the mapping does; the new status holds the mapped body, its author and retweet hold the mappings of their own members, and it carries the headers' rate limit |
| StatusMapper.CreateUserOfResponse | src/main/java/twitter4j/impl/TwitterTransport.java:127-133 | a malformed rate-limit header fails first, then a non-object body; otherwise it fails exactly when the mapping does; the new user holds the mapped body, its latest status holds the mapping of `status`, and it carries the headers' rate limit |
| StatusMapper.AppendStatus | src/main/java/twitter4j/impl/TwitterTransport.java:118 | one loop turn: a new status for element i after those for the elements before it |
| StatusMapper.BuildStatuses | src/main/java/twitter4j/impl/TwitterTransport.java:117-119 | one new status per mapped element, element k holding value k |
| StatusMapper.AppendUser | src/main/java/twitter4j/impl/TwitterTransport.java:215 | one loop turn: a new user for element i after those before it |
| StatusMapper.BuildUsers | src/main/java/twitter4j/impl/TwitterTransport.java:214-216 | one new user per mapped element, element k holding value k |
| StatusMapper.MappedStatusElements | src/main/java/twitter4j/impl/TwitterTransport.java:117-119 | element k of a successful status-list mapping is `MapStatus` of JSON element k, which is an object |
| StatusMapper.MappedUserElements | src/main/java/twitter4j/impl/TwitterTransport.java:214-216 | element k of a successful user-list mapping is `MapUser` of JSON element k, which is an object |
| StatusMapper.StatusesOfElements | src/main/java/twitter4j/impl/TwitterTransport.java:117-119 | statuses built for a mapped array: status k holds `MapStatus` of JSON element k |
| StatusMapper.UsersOfElements | src/main/java/twitter4j/impl/TwitterTransport.java:214-216 | users built for a mapped array: user k holds `MapUser` of JSON element k |
| StatusMapper.CreateStatusList | src/main/java/twitter4j/impl/TwitterTransport.java:111-124 | a non-array body fails before the headers are read; then a header error; otherwise it fails exactly when some element is not an object or does not map; the list has one status per element, status k holding `MapStatus` of element k, with the headers' rate limit |
| StatusMapper.CreateUserResponseList | src/main/java/twitter4j/impl/TwitterTransport.java:207-221 | a non-array body fails before the headers are read; then a header error; otherwise it fails exactly when some element is not an object or does not map; the list has one user per element, user k holding `MapUser` of element k, with the headers' rate limit |
| StatusMapper.CreatePagableUserResponseList | src/main/java/twitter4j/impl/TwitterTransport.java:189-206 | fails unless the body is an object with a `users` array; succeeds exactly when the headers, both tolerant cursor reads and every element map; then the cursors are `previous_cursor` and `next_cursor` (-1 when absent) and user k holds `MapUser` of element k of `users` |
| JsonArrays.MapObjects | src/main/java/twitter4j/impl/TwitterTransport.java:117-119 | a successful list has the input's length |
| JsonArrays.MapObjectsSucceeds | src/main/java/twitter4j/impl/TwitterTransport.java:117-119 | succeeds exactly when every element is an object that maps, and then element k is the mapping of element k |
| JsonArrays.MapObjectsStopsAt | src/main/java/twitter4j/impl/TwitterTransport.java:117-119 | a failure at element i after a successful prefix is the failure of the whole list: later elements are not looked at |
| JsonArrays.MapEach | src/main/java/twitter4j/impl/TwitterTransport.java:355-358 | the loop computes `MapObjects`, including its error |
| EntityMapper.ReadMessage | src/main/java/twitter4j/impl/TwitterTransport.java:280-287 | succeeds exactly when the three tolerant id reads and the date read do; id, text, sender and recipient ids, date and the two screen names are the reads of their own members; absent ids are -1 |
| EntityMapper.MapMessageShape | src/main/java/twitter4j/impl/TwitterTransport.java:279-295 | a mapped message has its scalar reads and both users, each mapped from its own member; its two ids come from `sender_id`/`recipient_id`, not from the users |
| EntityMapper.MessageNeedsBothUsers | src/main/java/twitter4j/impl/TwitterTransport.java:288-293 | a missing sender or recipient fails the message |
| EntityMapper.NewMessageWith | src/main/java/twitter4j/impl/TwitterTransport.java:280-290 | a new message holding the seven scalars and the two users |
| EntityMapper.BuildMessage | src/main/java/twitter4j/impl/TwitterTransport.java:279-295 | a new message with two new users holding the mapped value |
| EntityMapper.CreateDirectMessage | src/main/java/twitter4j/impl/TwitterTransport.java:279-295 | fails exactly when the mapping fails, with its error; otherwise a new message holding the mapped value |
| EntityMapper.SetMessageRateLimit | src/main/java/twitter4j/impl/TwitterTransport.java:274 | sets the rate limit and leaves what the message holds intact |
| EntityMapper.CreateDirectMessageOfResponse | src/main/java/twitter4j/impl/TwitterTransport.java:271-277 | headers first, then a non-object body, then the mapping; the message carries the headers' rate limit |
| EntityMapper.AppendMessage | src/main/java/twitter4j/impl/TwitterTransport.java:304 | one loop turn: a new message for element i after those before it |
| EntityMapper.BuildMessages | src/main/java/twitter4j/impl/TwitterTransport.java:303-305 | one new message per mapped element, in order |
| EntityMapper.CreateDirectMessageList | src/main/java/twitter4j/impl/TwitterTransport.java:297-310 | as `CreateStatusList`, for direct messages |
| EntityMapper.ReadList | src/main/java/twitter4j/impl/TwitterTransport.java:233-241 | succeeds exactly when the nine strict members are present; the numbers are `int`s; a failure is a JSONException |
| EntityMapper.ReadListOfMembers | src/main/java/twitter4j/impl/TwitterTransport.java:233-241 | round trip, in any member order: a list object sending each field as a number or string is read back as those fields |
| EntityMapper.NullDescriptionReadsAsText | src/main/java/twitter4j/impl/TwitterTransport.java:237 | a null description is read as the text "null" |
| EntityMapper.ListOwnerOf | src/main/java/twitter4j/impl/TwitterTransport.java:242-244 | no owner for a null or absent `user`; otherwise it succeeds exactly when `user` is an object that maps, giving that user |
| EntityMapper.MapListSucceeds | src/main/java/twitter4j/impl/TwitterTransport.java:230-249 | a list maps exactly when its scalars read and its owner maps, and then holds both |
| EntityMapper.NonObjectOwnerFailsList | src/main/java/twitter4j/impl/TwitterTransport.java:242-247 | a non-null owner that is not an object fails the list |
| EntityMapper.NewListWith | src/main/java/twitter4j/impl/TwitterTransport.java:231-243 | a new list holding the nine scalars and the owner |
| EntityMapper.BuildList | src/main/java/twitter4j/impl/TwitterTransport.java:230-249 | a new list, with a new owner, holding the mapped value |
| EntityMapper.CreateUserList | src/main/java/twitter4j/impl/TwitterTransport.java:230-249 | fails exactly when the mapping fails, with its error; otherwise a new list holding the mapped value |
| EntityMapper.SetListRateLimit | src/main/java/twitter4j/impl/TwitterTransport.java:226 | sets the rate limit and leaves what the list holds intact |
| EntityMapper.CreateUserListOfResponse | src/main/java/twitter4j/impl/TwitterTransport.java:223-228 | headers first, then a non-object body, then the mapping; the list carries the headers' rate limit |
| EntityMapper.AppendList | src/main/java/twitter4j/impl/TwitterTransport.java:263 | one loop turn: a new list for element i after those before it |
| EntityMapper.BuildLists | src/main/java/twitter4j/impl/TwitterTransport.java:262-264 | one new list per mapped element, in order |
| EntityMapper.CreateUserListList | src/main/java/twitter4j/impl/TwitterTransport.java:251-269 | fails unless the body is an object with a `lists` array; succeeds exactly when the headers, both cursors and every element map; then it carries the cursors and element k holds list k |
| EntityMapper.ReadSides | src/main/java/twitter4j/impl/TwitterTransport.java:378-385 | succeeds exactly when both tolerant id reads do, the only error being NumberFormatException; the ids and screen names come from their own side, and blocking, following, followed-by and notifications from the source side's `blocking`, `following`, `followed_by` and `notifications_enabled` |
| EntityMapper.TargetFlagsIgnored | src/main/java/twitter4j/impl/TwitterTransport.java:376-385 | two target sides with the same id and screen name give the same relationship: the target's flags are never read |
| EntityMapper.SidesOfSameTarget | src/main/java/twitter4j/impl/TwitterTransport.java:378-385 | the two sides read the same whenever the targets agree on `id` and `screen_name`: nothing else of the target is read |
| EntityMapper.RelationshipJsonSides | src/main/java/twitter4j/impl/TwitterTransport.java:375-385 | a relationship body is read from exactly its source and target sides |
| EntityMapper.MissingSideFailsRelationship | src/main/java/twitter4j/impl/TwitterTransport.java:375-377 | a missing source or target object is a JSONException |
| EntityMapper.NewRelationshipWith | src/main/java/twitter4j/impl/TwitterTransport.java:373-385 | a new relationship holding both ids, both names and the four source flags |
| EntityMapper.CreateRelationship | src/main/java/twitter4j/impl/TwitterTransport.java:372-390 | fails exactly when the mapping fails; otherwise a new relationship whose `isTargetFollowingSource` is the source's `followed_by` and whose `isTargetFollowedBySource` is its `following` |
| EntityMapper.CreateRelationshipOfResponse | src/main/java/twitter4j/impl/TwitterTransport.java:366-371 | headers first, then a non-object body, then the mapping; the result carries the headers' rate limit |
| EntityMapper.DeletionNoticeOf | src/main/java/twitter4j/impl/TwitterTransport.java:552-559 | a notice holds a `long` status id and an `int` user id |
| EntityMapper.DeletionNoticeOfJson | src/main/java/twitter4j/impl/TwitterTransport.java:552-559 | round trip: every notice with ids in range is read back from the `{"delete":{"status":{...}}}` body |
| EntityMapper.DeletionNoticeWithoutIds | src/main/java/twitter4j/impl/TwitterTransport.java:555-557 | a missing `status` object is an error; missing ids read as -1 |
| EntityMapper.TrackLimitationOf | src/main/java/twitter4j/impl/TwitterTransport.java:561-563 | needs a `limit` object; a missing `track` reads as -1; the result is an `int` |
| EntityMapper.TrackLimitationOfJson | src/main/java/twitter4j/impl/TwitterTransport.java:561-563 | round trip: every `int` count is read back, sent as a number or as its decimal text |
| SearchMapper.ToUserOf | src/main/java/twitter4j/impl/TwitterTransport.java:316-322 | a failed `to_user_id` read keeps 0 and null; otherwise the id is read, and `to_user` is set exactly when it also reads |
| SearchMapper.LanguageOf | src/main/java/twitter4j/impl/TwitterTransport.java:326-330 | the language exactly when `iso_language_code` reads; its failure is swallowed |
| SearchMapper.CreateTweet | src/main/java/twitter4j/impl/TwitterTransport.java:312-338 | succeeds exactly when `from_user`, `id`, `from_user_id` and `created_at` (in the search pattern) read; the date is the parsed one; an error is a JSONException or a bad date |
| SearchMapper.NullToUserIdDropsToUser | src/main/java/twitter4j/impl/TwitterTransport.java:316-322 | a null `to_user_id` leaves the id 0 and drops any `to_user` |
| SearchMapper.OptionalTweetMembers | src/main/java/twitter4j/impl/TwitterTransport.java:316-330 | a tweet without `to_user` keeps its `to_user_id`, one without a language has none; neither fails |
| SearchMapper.AddresseeOfMembers | src/main/java/twitter4j/impl/TwitterTransport.java:316-322 | round trip of the addressee block |
| SearchMapper.CreateTweetOfMembers | src/main/java/twitter4j/impl/TwitterTransport.java:312-338 | round trip, in any member order: a result sending every field of a tweet is read back as that tweet |
| SearchMapper.ReadQueryFields | src/main/java/twitter4j/impl/TwitterTransport.java:344-352 | succeeds exactly when the five strict envelope members read; since id, max id, refresh url, results per page, warning, completed-in, page and query are the reads of their own members; the ids are `long`s, the counts `int`s |
| SearchMapper.QueryResultShape | src/main/java/twitter4j/impl/TwitterTransport.java:340-364 | a page maps exactly when the body is an object, its envelope reads and every element of `results` is an object that maps; then tweet k is the mapping of element k |
| SearchMapper.EmptyResultsPage | src/main/java/twitter4j/impl/TwitterTransport.java:353-359 | an empty `results` array gives a page with no tweets |
| SearchMapper.SetEnvelope | src/main/java/twitter4j/impl/TwitterTransport.java:344-352 | the envelope reads, each stored in its field; only those fields change |
| SearchMapper.CreateQueryResult | src/main/java/twitter4j/impl/TwitterTransport.java:340-364 | fails exactly when the mapping fails, with its error; otherwise a new `QueryResult` holding the envelope and the tweets |
| SearchMapper.SavedSearchOf | src/main/java/twitter4j/impl/TwitterTransport.java:475-487 | succeeds exactly when `created_at` reads and parses and the tolerant `position` and `id` reads do; no rate limit; a missing position is -1 |
| SearchMapper.IntMemberReads | src/main/java/twitter4j/impl/TwitterTransport.java:480-482 | an `int` sent as a number or as its decimal text is read by the tolerant `getInt` |
| SearchMapper.SavedSearchOfMembers | src/main/java/twitter4j/impl/TwitterTransport.java:475-487 | round trip, in any member order: a saved search sending each field is read back |
| SearchMapper.SavedSearchOfResponse | src/main/java/twitter4j/impl/TwitterTransport.java:468-474 | headers first; the result is the body's saved search with the headers' rate limit |
| SearchMapper.SavedSearchListShape | src/main/java/twitter4j/impl/TwitterTransport.java:489-503 | one saved search per element, in order, none with a rate limit of its own; the list carries the headers' one |
| SearchMapper.SavedSearchListNeedsArray | src/main/java/twitter4j/impl/TwitterTransport.java:490 | a non-array body fails before the headers are read |
| SearchMapper.CreateSavedSearchList | src/main/java/twitter4j/impl/TwitterTransport.java:489-503 | the loop computes the list as specified by `SavedSearchListOf` |
| IdsMapper.IdOf | src/main/java/twitter4j/impl/TwitterTransport.java:515 | an id is an `int`; a failure is a malformed response |
| IdsMapper.IdOfCases | src/main/java/twitter4j/impl/TwitterTransport.java:515 | a numeric element is read exactly when it is an `int`, a text element exactly when `Integer.parseInt` accepts it |
| IdsMapper.ParseIds | src/main/java/twitter4j/impl/TwitterTransport.java:512-519 | a read page has the array's length and `int` ids; a failure is a malformed response |
| IdsMapper.ParseIdsSucceedsIff | src/main/java/twitter4j/impl/TwitterTransport.java:513-519 | a page is read exactly when every element is an `int` id |
| IdsMapper.ParseIdsValues | src/main/java/twitter4j/impl/TwitterTransport.java:513-519 | id k of a read page is the value of element k |
| IdsMapper.ParseIdsSucceeds | src/main/java/twitter4j/impl/TwitterTransport.java:512-519 | both: read exactly when every element reads, and then in order |
| IdsMapper.ParseIdsOfIdsJson | src/main/java/twitter4j/impl/TwitterTransport.java:512-519 | round trip: every array of `int` ids is read back |
| IdsMapper.ParseIdsStopsAt | src/main/java/twitter4j/impl/TwitterTransport.java:513-518 | the first failing element fails the whole page |
| IdsMapper.FillIds | src/main/java/twitter4j/impl/TwitterTransport.java:512-519 | the loop fills a new array of the input's length with `ParseIds`' result, or fails with its error |
| IdsMapper.FriendsIdsCursors | src/main/java/twitter4j/impl/TwitterTransport.java:521-522 | the friends page carries the body's cursors: a `next_cursor` of 0 is 0, an absent one -1 |
| IdsMapper.BlockIdsShape | src/main/java/twitter4j/impl/TwitterTransport.java:530-550 | a block page reads id k from element k of the body array, and its cursors stay at -1 |
| IdsMapper.NonNumeralIdRejectsBlockPage | src/main/java/twitter4j/impl/TwitterTransport.java:538-542 | one non-numeral element makes the page a malformed response |
| IdsMapper.CreateFriendsIDs | src/main/java/twitter4j/impl/TwitterTransport.java:505-527 | fails exactly when the mapping fails; otherwise a new `IDs` with a new array holding the ids and the cursors |
| IdsMapper.CreateBlockIDs | src/main/java/twitter4j/impl/TwitterTransport.java:530-550 | as `CreateFriendsIDs`; the cursors are never set, so the page has both a next and a previous page |
| TrendsMapper.CreateTrend | src/main/java/twitter4j/impl/TwitterTransport.java:392-402 | the name is required; url and query are null exactly when their member is null or absent |
| TrendsMapper.CreateTrendOfTrendJson | src/main/java/twitter4j/impl/TwitterTransport.java:392-402 | round trip: every trend is read back from the object it is sent as |
| TrendsMapper.TrendArray | src/main/java/twitter4j/impl/TwitterTransport.java:459-466 | the loop fills a new array equal to `MapObjects` of the elements, or fails with its error |
| TrendsMapper.ParseTrendsDate | src/main/java/twitter4j/impl/TwitterTransport.java:449-457 | a 10-character text succeeds exactly when `Long.parseLong` accepts it; any other succeeds exactly when the trends pattern reads it |
| TrendsMapper.EpochSecondsAsOf | src/main/java/twitter4j/impl/TwitterTransport.java:451-452 | a ten-digit epoch-seconds text is that many seconds times 1000 |
| TrendsMapper.TrendsOfShape | src/main/java/twitter4j/impl/TwitterTransport.java:437-447 | `createTrends` uses `as_of` for both `asOf` and `trendAt`, and holds trend k of the `trends` array |
| TrendsMapper.CreateTrends | src/main/java/twitter4j/impl/TwitterTransport.java:437-447 | computes `TrendsOf`, including its errors |
| TrendsMapper.BucketFormat | src/main/java/twitter4j/impl/TwitterTransport.java:417-429 | a bucket format exactly for keys of length 19, 16 or 10 |
| TrendsMapper.BucketOf | src/main/java/twitter4j/impl/TwitterTransport.java:414-429 | a bucket exactly for a key of a bucket length, stamped with `asOf` and the key's parsed instant |
| TrendsMapper.Buckets | src/main/java/twitter4j/impl/TwitterTransport.java:412-430 | the buckets are dated, all stamped with `asOf`, one per key of a bucket length |
| TrendsMapper.BucketsStopsAt | src/main/java/twitter4j/impl/TwitterTransport.java:412-430 | the first failing key fails the loop |
| TrendsMapper.Keys | src/main/java/twitter4j/impl/TwitterTransport.java:412-414 | the object's keys, in member order |
| TrendsMapper.TrendsListShape | src/main/java/twitter4j/impl/TwitterTransport.java:404-436 | the list is sorted ascending by `trendAt`, all stamped with the one `asOf`, one record per key of a bucket length, a permutation of the loop's records |
| TrendsMapper.NoBucketKeysNoTrends | src/main/java/twitter4j/impl/TwitterTransport.java:411-432 | keys of other lengths are dropped: with none of a bucket length (an empty `trends` object included) the list is empty |
| TrendsMapper.NextBucket | src/main/java/twitter4j/impl/TwitterTransport.java:414-429 | the loop body computes `BucketOf` |
| TrendsMapper.AddBucket | src/main/java/twitter4j/impl/TwitterTransport.java:414-429 | one loop turn extends the buckets of the keys before |
| TrendsMapper.CollectBuckets | src/main/java/twitter4j/impl/TwitterTransport.java:412-430 | the `while` loop computes `Buckets` |
| TrendsMapper.CreateTrendsList | src/main/java/twitter4j/impl/TwitterTransport.java:404-436 | the loop then `Collections.sort`: computes `TrendsListOf` |
| TrendsData.CompareTo | src/main/java/twitter4j/Trends.java:45-47 | orders by `trendAt` alone: negative, zero, positive exactly when earlier, equal, later |
| TrendsData.NoTrendsNotComparable | src/main/java/twitter4j/Trends.java:45-50 | a record from the no-argument constructor cannot be compared: its `trendAt` is null |
| TrendsData.Equals | src/main/java/twitter4j/Trends.java:72-85 | null-safe dates and element-wise arrays: exactly equality of the records |
| TrendsData.HashCode | src/main/java/twitter4j/Trends.java:88-93 | an `int`; 0 for the empty record |
| TrendsData.HashConsistent | src/main/java/twitter4j/Trends.java:88-93 | equal records hash alike |
| TrendsData.SortedMeansCompareTo | src/main/java/twitter4j/impl/TwitterTransport.java:431 | ascending by instant is ascending by `compareTo` |
| TrendsData.Insert | src/main/java/twitter4j/impl/TwitterTransport.java:431 | inserting into a sorted list keeps it sorted and adds exactly the one element |
| TrendsData.Sort | src/main/java/twitter4j/impl/TwitterTransport.java:431 | sorted by `trendAt` and a permutation of the input |
| TrendsData.SortIsStable | src/main/java/twitter4j/impl/TwitterTransport.java:431 | records sharing an instant keep their order, as `Collections.sort` promises |
| StatusAndUser.InReplyTo.constructor | src/main/java/twitter4j/Status.java:250-253 | a new reply block holds zeros and a null screen name |
| StatusAndUser.InReplyTo.Equals | src/main/java/twitter4j/Status.java:278-290 | equal exactly to another `InReplyTo` agreeing on status id, user id and (null-safely) screen name; never to null |
| StatusAndUser.InReplyTo.HashCode | src/main/java/twitter4j/Status.java:293-298 | an `int` |
| StatusAndUser.InReplyToHashConsistent | src/main/java/twitter4j/Status.java:278-298 | equal reply blocks hash alike |
| StatusAndUser.Status.constructor | src/main/java/twitter4j/Status.java:38-52 | a new status has null location, author, retweet and reply, so it is neither a retweet nor a reply |
| StatusAndUser.Status.HashCode | src/main/java/twitter4j/Status.java:205-207 | the id narrowed to 32 bits: congruent to the id modulo 2^32, and the id itself when it fits |
| StatusAndUser.Status.Equals | src/main/java/twitter4j/Status.java:210-218 | equal exactly to a `Status` with the same id; false for null, true for itself |
| StatusAndUser.StatusHashConsistent | src/main/java/twitter4j/Status.java:205-218 | equal statuses hash alike |
| StatusAndUser.StatusEqualsSymmetric | src/main/java/twitter4j/Status.java:210-218 | status equality is symmetric |
| StatusAndUser.Profile.constructor | src/main/java/twitter4j/User.java:359-370 | a new profile holds nulls and a false tile flag |
| StatusAndUser.Profile.Equals | src/main/java/twitter4j/User.java:437-457 | equal exactly to a `Profile` agreeing on all eight fields, the tile flag included |
| StatusAndUser.Profile.HashCode | src/main/java/twitter4j/User.java:460-470 | an `int` |
| StatusAndUser.ProfileHashConsistent | src/main/java/twitter4j/User.java:437-470 | equal profiles hash alike |
| StatusAndUser.User.constructor | src/main/java/twitter4j/User.java:40-66 | a new user has a null status and profile and zero counts |
| StatusAndUser.User.HashCode | src/main/java/twitter4j/User.java:280-282 | the id |
| StatusAndUser.User.Equals | src/main/java/twitter4j/User.java:285-293 | equal exactly to a `User` with the same id; false for null, true for itself |
| StatusAndUser.User.DeepEquals | src/main/java/twitter4j/User.java:295-321 | implies `equals`; reflexive; false for null, for another class and for another id |
| StatusAndUser.UserHashConsistent | src/main/java/twitter4j/User.java:280-293 | equal users hash alike |
| StatusAndUser.DeepEqualsSeparatesNullName | src/main/java/twitter4j/User.java:310-318 | null versus a present text is unequal under `deepEquals` though `equals` holds |
| StatusAndUser.InReplyTo.SetStatusId | src/main/java/twitter4j/Status.java:257-259 | stores its argument verbatim in `statusId`; its frame is that one field, so every other field keeps its value |
| StatusAndUser.InReplyTo.SetUserId | src/main/java/twitter4j/Status.java:265-267 | stores its argument verbatim in `userId`; its frame is that one field, so every other field keeps its value |
| StatusAndUser.InReplyTo.SetUserScreenName | src/main/java/twitter4j/Status.java:273-275 | stores its argument verbatim in `userScreenName`; its frame is that one field, so every other field keeps its value |
| StatusAndUser.Status.SetCreatedAt | src/main/java/twitter4j/Status.java:65-67 | stores its argument verbatim in `createdAt`; its frame is that one field, so every other field keeps its value |
| StatusAndUser.Status.SetId | src/main/java/twitter4j/Status.java:78-80 | stores its argument verbatim in `id`; its frame is that one field, so every other field keeps its value |
| StatusAndUser.Status.SetText | src/main/java/twitter4j/Status.java:91-93 | stores its argument verbatim in `text`; its frame is that one field, so every other field keeps its value |
| StatusAndUser.Status.SetSource | src/main/java/twitter4j/Status.java:105-107 | stores its argument verbatim in `source`; its frame is that one field, so every other field keeps its value |
| StatusAndUser.Status.SetTruncated | src/main/java/twitter4j/Status.java:119-121 | stores its argument verbatim in `truncated`; its frame is that one field, so every other field keeps its value |
| StatusAndUser.Status.SetInReplyTo | src/main/java/twitter4j/Status.java:127-129 | stores its argument verbatim in `inReplyTo`; its frame is that one field, so every other field keeps its value; afterwards `isInReply` holds exactly when the argument is non-null |
| StatusAndUser.Status.SetGeoLocation | src/main/java/twitter4j/Status.java:142-144 | stores its argument verbatim in `geoLocation`; its frame is that one field, so every other field keeps its value |
| StatusAndUser.Status.SetFavorited | src/main/java/twitter4j/Status.java:156-158 | stores its argument verbatim in `favorited`; its frame is that one field, so every other field keeps its value |
| StatusAndUser.Status.SetUser | src/main/java/twitter4j/Status.java:171-173 | stores its argument verbatim in `user`; its frame is that one field, so every other field keeps its value |
| StatusAndUser.Status.SetRetweetedStatus | src/main/java/twitter4j/Status.java:198-200 | stores its argument verbatim in `retweetedStatus`; its frame is that one field, so every other field keeps its value; afterwards `isRetweet` holds exactly when the argument is non-null |
| StatusAndUser.Status.SetRateLimitStatus | src/main/java/twitter4j/Status.java:241-243 | stores its argument verbatim in `rateLimitStatus`; its frame is that one field, so every other field keeps its value |
| StatusAndUser.Profile.SetImageUrl | src/main/java/twitter4j/User.java:376-378 | stores its argument verbatim in `imageUrl`; its frame is that one field, so every other field keeps its value |
| StatusAndUser.Profile.SetBackgroundColor | src/main/java/twitter4j/User.java:384-386 | stores its argument verbatim in `backgroundColor`; its frame is that one field, so every other field keeps its value |
| StatusAndUser.Profile.SetBackgroundImageUrl | src/main/java/twitter4j/User.java:392-394 | stores its argument verbatim in `backgroundImageUrl`; its frame is that one field, so every other field keeps its value |
| StatusAndUser.Profile.SetBackgroundTile | src/main/java/twitter4j/User.java:400-402 | stores its argument verbatim in `backgroundTile`; its frame is that one field, so every other field keeps its value |
| StatusAndUser.Profile.SetLinkColor | src/main/java/twitter4j/User.java:408-410 | stores its argument verbatim in `linkColor`; its frame is that one field, so every other field keeps its value |
| StatusAndUser.Profile.SetSidebarBorderColor | src/main/java/twitter4j/User.java:416-418 | stores its argument verbatim in `sidebarBorderColor`; its frame is that one field, so every other field keeps its value |
| StatusAndUser.Profile.SetSidebarFillColor | src/main/java/twitter4j/User.java:424-426 | stores its argument verbatim in `sidebarFillColor`; its frame is that one field, so every other field keeps its value |
| StatusAndUser.Profile.SetTextColor | src/main/java/twitter4j/User.java:432-434 | stores its argument verbatim in `textColor`; its frame is that one field, so every other field keeps its value |
| StatusAndUser.User.SetId | src/main/java/twitter4j/User.java:78-81 | stores its argument verbatim in `id`; its frame is that one field, so every other field keeps its value |
| StatusAndUser.User.SetName | src/main/java/twitter4j/User.java:92-95 | stores its argument verbatim in `name`; its frame is that one field, so every other field keeps its value |
| StatusAndUser.User.SetScreenName | src/main/java/twitter4j/User.java:106-109 | stores its argument verbatim in `screenName`; its frame is that one field, so every other field keeps its value |
| StatusAndUser.User.SetLocation | src/main/java/twitter4j/User.java:120-123 | stores its argument verbatim in `location`; its frame is that one field, so every other field keeps its value |
| StatusAndUser.User.SetDescription | src/main/java/twitter4j/User.java:134-137 | stores its argument verbatim in `description`; its frame is that one field, so every other field keeps its value |
| StatusAndUser.User.SetURL | src/main/java/twitter4j/User.java:153-155 | stores its argument verbatim in `url`; its frame is that one field, so every other field keeps its value |
| StatusAndUser.User.SetProtected | src/main/java/twitter4j/User.java:166-168 | stores its argument verbatim in `isProtected`; its frame is that one field, so every other field keeps its value |
| StatusAndUser.User.SetFollowersCount | src/main/java/twitter4j/User.java:180-182 | stores its argument verbatim in `followersCount`; its frame is that one field, so every other field keeps its value |
| StatusAndUser.User.SetStatus | src/main/java/twitter4j/User.java:193-195 | stores its argument verbatim in `status`; its frame is that one field, so every other field keeps its value |
| StatusAndUser.User.SetProfile | src/main/java/twitter4j/User.java:201-203 | stores its argument verbatim in `profile`; its frame is that one field, so every other field keeps its value |
| StatusAndUser.User.SetFriendsCount | src/main/java/twitter4j/User.java:209-211 | stores its argument verbatim in `friendsCount`; its frame is that one field, so every other field keeps its value |
| StatusAndUser.User.SetCreatedAt | src/main/java/twitter4j/User.java:217-219 | stores its argument verbatim in `createdAt`; its frame is that one field, so every other field keeps its value |
| StatusAndUser.User.SetFavouritesCount | src/main/java/twitter4j/User.java:225-227 | stores its argument verbatim in `favouritesCount`; its frame is that one field, so every other field keeps its value |
| StatusAndUser.User.SetUtcOffset | src/main/java/twitter4j/User.java:233-235 | stores its argument verbatim in `utcOffset`; its frame is that one field, so every other field keeps its value |
| StatusAndUser.User.SetTimeZone | src/main/java/twitter4j/User.java:241-243 | stores its argument verbatim in `timeZone`; its frame is that one field, so every other field keeps its value |
| StatusAndUser.User.SetStatusesCount | src/main/java/twitter4j/User.java:249-251 | stores its argument verbatim in `statusesCount`; its frame is that one field, so every other field keeps its value |
| StatusAndUser.User.SetGeoEnabled | src/main/java/twitter4j/User.java:262-264 | stores its argument verbatim in `isGeoEnabled`; its frame is that one field, so every other field keeps its value |
| StatusAndUser.User.SetVerified | src/main/java/twitter4j/User.java:275-277 | stores its argument verbatim in `isVerified`; its frame is that one field, so every other field keeps its value |
| StatusAndUser.User.SetRateLimitStatus | src/main/java/twitter4j/User.java:352-354 | stores its argument verbatim in `rateLimitStatus`; its frame is that one field, so every other field keeps its value |
| DirectMessages.DirectMessage.constructor | src/main/java/twitter4j/DirectMessage.java:36-47 | a new message holds zeros, nulls and no users |
| DirectMessages.DirectMessage.HashCode | src/main/java/twitter4j/DirectMessage.java:128-130 | the id |
| DirectMessages.DirectMessage.Equals | src/main/java/twitter4j/DirectMessage.java:133-141 | equal exactly to a `DirectMessage` with the same id; false for null, true for itself |
| DirectMessages.DirectMessageHashConsistent | src/main/java/twitter4j/DirectMessage.java:127-141 | equal messages hash alike |
| DirectMessages.DirectMessage.SetId | src/main/java/twitter4j/DirectMessage.java:53-55 | stores its argument verbatim in `id`; its frame is that one field, so every other field keeps its value |
| DirectMessages.DirectMessage.SetText | src/main/java/twitter4j/DirectMessage.java:61-63 | stores its argument verbatim in `text`; its frame is that one field, so every other field keeps its value |
| DirectMessages.DirectMessage.SetSenderId | src/main/java/twitter4j/DirectMessage.java:69-71 | stores the sender id; the `sender` object and every other field keep their value |
| DirectMessages.DirectMessage.SetRecipientId | src/main/java/twitter4j/DirectMessage.java:77-79 | stores the recipient id; the `recipient` object and every other field keep their value |
| DirectMessages.DirectMessage.SetCreatedAt | src/main/java/twitter4j/DirectMessage.java:89-91 | stores its argument verbatim in `createdAt`; its frame is that one field, so every other field keeps its value |
| DirectMessages.DirectMessage.SetSenderScreenName | src/main/java/twitter4j/DirectMessage.java:97-99 | stores its argument verbatim in `senderScreenName`; its frame is that one field, so every other field keeps its value |
| DirectMessages.DirectMessage.SetRecipientScreenName | src/main/java/twitter4j/DirectMessage.java:105-107 | stores its argument verbatim in `recipientScreenName`; its frame is that one field, so every other field keeps its value |
| DirectMessages.DirectMessage.SetSender | src/main/java/twitter4j/DirectMessage.java:114-116 | stores the sender object; `senderId` and every other field keep their value |
| DirectMessages.DirectMessage.SetRecipient | src/main/java/twitter4j/DirectMessage.java:122-124 | stores the recipient object; `recipientId` and every other field keep their value |
| DirectMessages.DirectMessage.SetRateLimitStatus | src/main/java/twitter4j/DirectMessage.java:163-165 | stores its argument verbatim in `rateLimitStatus`; its frame is that one field, so every other field keeps its value |
| UserLists.UserList.constructor | src/main/java/twitter4j/UserList.java:39-50 | a new list has no owner and null texts |
| UserLists.UserList.HashCode | src/main/java/twitter4j/UserList.java:188-190 | the id |
| UserLists.UserList.Equals | src/main/java/twitter4j/UserList.java:193-201 | equal exactly to a `UserList` with the same id; false for null, true for itself |
| UserLists.UserListHashConsistent | src/main/java/twitter4j/UserList.java:187-201 | equal lists hash alike |
| UserLists.UserList.SetId | src/main/java/twitter4j/UserList.java:61-63 | stores its argument verbatim in `id`; its frame is that one field, so every other field keeps its value |
| UserLists.UserList.SetName | src/main/java/twitter4j/UserList.java:74-76 | stores its argument verbatim in `name`; its frame is that one field, so every other field keeps its value |
| UserLists.UserList.SetFullName | src/main/java/twitter4j/UserList.java:87-89 | stores its argument verbatim in `fullName`; its frame is that one field, so every other field keeps its value |
| UserLists.UserList.SetSlug | src/main/java/twitter4j/UserList.java:100-102 | stores its argument verbatim in `slug`; its frame is that one field, so every other field keeps its value |
| UserLists.UserList.SetDescription | src/main/java/twitter4j/UserList.java:113-115 | stores its argument verbatim in `description`; its frame is that one field, so every other field keeps its value |
| UserLists.UserList.SetSubscriberCount | src/main/java/twitter4j/UserList.java:126-128 | stores its argument verbatim in `subscriberCount`; its frame is that one field, so every other field keeps its value |
| UserLists.UserList.SetMemberCount | src/main/java/twitter4j/UserList.java:139-141 | stores its argument verbatim in `memberCount`; its frame is that one field, so every other field keeps its value |
| UserLists.UserList.SetURI | src/main/java/twitter4j/UserList.java:156-158 | stores its argument verbatim in `uri`; its frame is that one field, so every other field keeps its value |
| UserLists.UserList.SetMode | src/main/java/twitter4j/UserList.java:169-171 | stores any text verbatim, not only "public"/"private"; only `mode` changes |
| UserLists.UserList.SetUser | src/main/java/twitter4j/UserList.java:182-184 | stores its argument verbatim in `user`; its frame is that one field, so every other field keeps its value |
| UserLists.UserList.SetRateLimitStatus | src/main/java/twitter4j/UserList.java:224-226 | stores its argument verbatim in `rateLimitStatus`; its frame is that one field, so every other field keeps its value |
| Relationships.Relationship.constructor | src/main/java/twitter4j/Relationship.java:37-46 | a new relationship holds zeros, nulls and four false flags |
| Relationships.Relationship.IsTargetFollowingSource | src/main/java/twitter4j/Relationship.java:132-134 | always the source-side "followed by target" flag |
| Relationships.Relationship.IsTargetFollowedBySource | src/main/java/twitter4j/Relationship.java:156-158 | always the source-side "following target" flag |
| Relationships.Relationship.Equals | src/main/java/twitter4j/Relationship.java:174-188 | defined where the screen names it dereferences are present; then equal exactly to a `Relationship` with the same two ids and two names; the flags are ignored |
| Relationships.Relationship.HashCode | src/main/java/twitter4j/Relationship.java:191-197 | requires both names, which it dereferences; an `int` |
| Relationships.RelationshipHashConsistent | src/main/java/twitter4j/Relationship.java:174-197 | equal relationships hash alike |
| Relationships.UnnamedRelationshipsNotComparable | src/main/java/twitter4j/Relationship.java:182-185 | two distinct relationships with equal ids and no source name cannot be compared: `equals` throws |
| Relationships.Relationship.SetSourceUserId | src/main/java/twitter4j/Relationship.java:57-59 | stores its argument verbatim in `sourceUserId`; its frame is that one field, so every other field keeps its value |
| Relationships.Relationship.SetTargetUserId | src/main/java/twitter4j/Relationship.java:70-72 | stores its argument verbatim in `targetUserId`; its frame is that one field, so every other field keeps its value |
| Relationships.Relationship.SetSourceBlockingTarget | src/main/java/twitter4j/Relationship.java:83-85 | stores its argument verbatim in `sourceBlockingTarget`; its frame is that one field, so every other field keeps its value |
| Relationships.Relationship.SetSourceUserScreenName | src/main/java/twitter4j/Relationship.java:96-98 | stores its argument verbatim in `sourceUserScreenName`; its frame is that one field, so every other field keeps its value |
| Relationships.Relationship.SetTargetUserScreenName | src/main/java/twitter4j/Relationship.java:109-111 | stores its argument verbatim in `targetUserScreenName`; its frame is that one field, so every other field keeps its value |
| Relationships.Relationship.SetSourceFollowingTarget | src/main/java/twitter4j/Relationship.java:122-124 | stores its argument verbatim in `sourceFollowingTarget`; its frame is that one field, so every other field keeps its value; afterwards `isTargetFollowedBySource` answers with it |
| Relationships.Relationship.SetSourceFollowedByTarget | src/main/java/twitter4j/Relationship.java:146-148 | stores its argument verbatim in `sourceFollowedByTarget`; its frame is that one field, so every other field keeps its value; afterwards `isTargetFollowingSource` answers with it |
| Relationships.Relationship.SetSourceNotificationsEnabled | src/main/java/twitter4j/Relationship.java:169-171 | stores its argument verbatim in `sourceNotificationsEnabled`; its frame is that one field, so every other field keeps its value |
| Relationships.Relationship.SetRateLimitStatus | src/main/java/twitter4j/Relationship.java:217-219 | stores its argument verbatim in `rateLimitStatus`; its frame is that one field, so every other field keeps its value |
| Search.QueryResult.constructor | src/main/java/twitter4j/QueryResult.java:50-51 | a new page holds zeros and nulls |
| Search.QueryResult.FromQuery | src/main/java/twitter4j/QueryResult.java:53-58 | copies since id, page size and page from the query, an empty tweet list, null query text, refresh URL and warning |
| Search.QueryResult.Equals | src/main/java/twitter4j/QueryResult.java:133-153 | defined where the query text it dereferences is present; then equal exactly when all nine fields agree |
| Search.EmptyPagesNotComparable | src/main/java/twitter4j/QueryResult.java:144 | two distinct empty pages built from the same query cannot be compared: `equals` dereferences the null query text |
| Search.QueryResult.SetSinceId | src/main/java/twitter4j/QueryResult.java:64-66 | stores its argument verbatim in `sinceId`; its frame is that one field, so every other field keeps its value |
| Search.QueryResult.SetMaxId | src/main/java/twitter4j/QueryResult.java:72-74 | stores its argument verbatim in `maxId`; its frame is that one field, so every other field keeps its value |
| Search.QueryResult.SetRefreshUrl | src/main/java/twitter4j/QueryResult.java:80-82 | stores its argument verbatim in `refreshUrl`; its frame is that one field, so every other field keeps its value |
| Search.QueryResult.SetResultsPerPage | src/main/java/twitter4j/QueryResult.java:88-90 | stores its argument verbatim in `resultsPerPage`; its frame is that one field, so every other field keeps its value |
| Search.QueryResult.SetWarning | src/main/java/twitter4j/QueryResult.java:96-98 | stores its argument verbatim in `warning`; its frame is that one field, so every other field keeps its value |
| Search.QueryResult.SetCompletedIn | src/main/java/twitter4j/QueryResult.java:104-106 | stores its argument verbatim in `completedIn`; its frame is that one field, so every other field keeps its value |
| Search.QueryResult.SetPage | src/main/java/twitter4j/QueryResult.java:112-114 | stores its argument verbatim in `page`; its frame is that one field, so every other field keeps its value |
| Search.QueryResult.SetQuery | src/main/java/twitter4j/QueryResult.java:120-122 | stores its argument verbatim in `query`; its frame is that one field, so every other field keeps its value |
| Search.QueryResult.SetTweets | src/main/java/twitter4j/QueryResult.java:128-130 | stores its argument verbatim in `tweets`; its frame is that one field, so every other field keeps its value |
| IdPages.ArrayHash | src/main/java/twitter4j/IDs.java:90-92 | an `int`; 1 for the empty array |
| IdPages.ArraysEqual | src/main/java/twitter4j/IDs.java:78-87 | both null, or both present with equal contents |
| IdPages.IDs.constructor | src/main/java/twitter4j/IDs.java:36-43 | no array and both cursors -1, so a new page has a next and a previous page |
| IdPages.IDs.Equals | src/main/java/twitter4j/IDs.java:78-87 | equal exactly to an `IDs` with equal arrays; cursors and rate limit ignored |
| IdPages.IDs.HashCode | src/main/java/twitter4j/IDs.java:90-92 | an `int`; 0 without an array |
| IdPages.IDsHashConsistent | src/main/java/twitter4j/IDs.java:78-92 | equal pages hash alike |
| IdPages.CursorsIgnoredByEquals | src/main/java/twitter4j/IDs.java:78-87 | pages sharing an array are equal whatever their cursors |
| IdPages.IDs.SetIDs | src/main/java/twitter4j/IDs.java:49-51 | stores the array reference itself, not a copy, so the page and the caller share it; only `ids` changes |
| IdPages.IDs.SetPreviousCursor | src/main/java/twitter4j/IDs.java:61-63 | stores its argument verbatim in `previousCursor`; its frame is that one field, so every other field keeps its value; afterwards `hasPrevious` holds exactly when it is not 0 |
| IdPages.IDs.SetNextCursor | src/main/java/twitter4j/IDs.java:73-75 | stores its argument verbatim in `nextCursor`; its frame is that one field, so every other field keeps its value; afterwards `hasNext` holds exactly when it is not 0 |
| IdPages.IDs.SetRateLimitStatus | src/main/java/twitter4j/IDs.java:108-110 | stores its argument verbatim in `rateLimitStatus`; its frame is that one field, so every other field keeps its value |

## Left out

- `QueryResult.hashCode`: not modelled. It mixes `Double.doubleToLongBits` of the completion time, and floating point is not modelled.
- Getters, `toString` and `Serializable`: not modelled. Every getter returns its field, and the model reads the fields directly.
- `User.getURL` and `UserList.getURI`: not modelled. They build `java.net.URL`/`URI` objects, which are outside the model.
- HTML unescaping: not modelled. `getText` and `getString(…, decode)` unescape HTML entities; the model returns the stored text unchanged.
- Exceptions: `TwitterException`, `JSONException` and `NumberFormatException` are told apart only by `Error` constructors. Their messages are not modelled.
- `SimpleDateFormat` parsing: stands as the `dates` parameter.
- `Double.parseDouble`: stands as the `doubles` parameter.
- The clock: stands as the `now` parameter.
- `String.hashCode`: stands as the `strHash` parameter.
- org.json rendering: `getString` on an object, or on an array holding strings or nested values, renders JSON text. That rendering is not modelled, and such reads yield an unmodelled-value error.
- `JSONObject` key order: the order of the members as given, which is what the trends bucket iteration sees.
- Building order: the reads are made before any object is built, and children are built before their parents. Neither difference is observable, because an exception discards everything built.
- Holds predicates: the `…Holds` predicates tie one object and its directly nested objects to the mapped tree. Deeper nesting, such as the user of a retweeted status, is stated one level at a time.
- `Profile.setBackgroundTile`: `User.java` declares it with a `boolean` argument, but `createUser` passes it the `String` from `getString("profile_background_tile")`, so the source does not type-check at that call. The model resolves the call as `getBoolean` into the boolean field.
- `ParseUtil`: its source is not part of this model. Its lenient semantics above are assumed.
- `Trend` equality: structural (name, url, query). The `Trend` class is not part of this model.
- StatusAndUser.InReplyTo.HashCode: states only that the hash is a 32-bit value, not the value itself, because `String.hashCode` is abstract here.
- StatusAndUser.Profile.HashCode: states only that the hash is a 32-bit value, for the same reason.
- Relationships.Relationship.HashCode: states only that the hash is a 32-bit value, for the same reason.
- TrendsData.HashCode: states only that the hash is a 32-bit value, for the same reason.
- IdPages.ArrayHash: states only that the hash is a 32-bit value and that the empty array hashes to 1. Its equality consistency is proved in `IdPages.IDsHashConsistent`.
- Relationships.Relationship.Equals: requires `EqualsDefined`. That requirement is where the Java method would throw `NullPointerException` on a missing screen name, and `UnnamedRelationshipsNotComparable` states that case.
- Search.QueryResult.Equals: requires `EqualsDefined`. That requirement is where the Java method would throw `NullPointerException` on a missing query text, and `EmptyPagesNotComparable` states that case.
- Concurrency and the HTTP transport itself: not modelled. The model starts from an already parsed body and header map.
