/** `createStatus` and `createUser` with their list and pagable variants. A status
    embeds its author and possibly the status it retweets; a user embeds its latest
    status. The two mappers call each other down the JSON tree, so they terminate on
    its shape.

    Each mapper is split in two halves: a function on values (`MapStatus`, `MapUser`)
    that makes every read and raises every error, and a method (`BuildStatus`,
    `BuildUser`) that builds the objects for a mapped value by the source's setter
    calls. An exception discards the half-built object, so making the reads first is
    not observable. `StatusHolds` and `UserHolds` say that an object holds a value. */
module StatusMapper {
  import opened Wrappers
  import opened JavaNumbers
  import opened OrgJson
  import opened ParseUtil
  import opened ValueTypes
  import opened StatusAndUser
  import opened RateLimits
  import opened JsonArrays

  /** `Double.parseDouble`, whose grammar is not modelled: `None` is a
      NumberFormatException. */
  type DoubleParser = string -> Option<real>

  // ---- geo coordinates ----

  /** The pieces of `s` between commas, empty pieces included. */
  function SplitAll(s: string): (r: seq<string>)
    ensures |r| >= 1
    ensures forall i :: 0 <= i < |r| ==> ',' !in r[i]
    ensures |r| == 1 <==> ',' !in s
  {
    if s == [] then [""]
    else
      var rest := SplitAll(s[1..]);
      if s[0] == ',' then [""] + rest
      else
        assert s == [s[0]] + s[1..];
        [[s[0]] + rest[0]] + rest[1..]
  }

  function DropTrailingEmpty(ps: seq<string>): (r: seq<string>)
    ensures |r| <= |ps| && r == ps[..|r|]
    ensures r != [] ==> r[|r| - 1] != ""
  {
    if ps != [] && ps[|ps| - 1] == "" then DropTrailingEmpty(ps[..|ps| - 1]) else ps
  }

  /** `String.split(",")`: the whole string when it has no comma; otherwise the pieces
      with trailing empty pieces removed. */
  function Split(s: string): (r: seq<string>)
    ensures ',' !in s ==> r == [s]
    ensures forall i :: 0 <= i < |r| ==> ',' !in r[i]
  {
    if ',' !in s then [s] else DropTrailingEmpty(SplitAll(s))
  }

  /** The coordinate text without its first and last character, split on ",": piece 0
      is the latitude and piece 1 the longitude. A text shorter than two characters, or
      fewer than two pieces, is an index error; a piece `parseDouble` rejects is a
      number-format error (pieces read left to right). */
  function GeoFromCoordinates(coordinates: string, doubles: DoubleParser): (r: Result<GeoLocation>)
    ensures |coordinates| < 2 ==> r == Failure(IndexOutOfBounds)
    ensures r.Success? ==>
      var point := Split(coordinates[1..|coordinates| - 1]);
      |point| >= 2 && doubles(point[0]) == Some(r.value.latitude) && doubles(point[1]) == Some(r.value.longitude)
  {
    if |coordinates| < 2 then Failure(IndexOutOfBounds)
    else
      var point := Split(coordinates[1..|coordinates| - 1]);
      if |point| == 0 then Failure(IndexOutOfBounds)
      else if doubles(point[0]).None? then Failure(NumberFormat)
      else if |point| == 1 then Failure(IndexOutOfBounds)
      else if doubles(point[1]).None? then Failure(NumberFormat)
      else Success(GeoLocation(doubles(point[0]).value, doubles(point[1]).value))
  }

  lemma {:induction false} SplitAllNoComma(s: string)
    requires ',' !in s
    ensures SplitAll(s) == [s]
  {
    if s != [] {
      SplitAllNoComma(s[1..]);
      assert s == [s[0]] + s[1..];
    }
  }

  lemma {:induction false} SplitAllPair(a: string, b: string)
    requires ',' !in a && ',' !in b
    ensures SplitAll(a + "," + b) == [a, b]
  {
    if a == [] {
      assert a + "," + b == [','] + b;
      assert (a + "," + b)[1..] == b;
      SplitAllNoComma(b);
    } else {
      assert (a + "," + b)[1..] == a[1..] + "," + b;
      SplitAllPair(a[1..], b);
      assert [a[0]] + a[1..] == a;
    }
  }

  /** Latitude and longitude texts, joined by a comma and wrapped in any two characters,
      are read back as the two numbers. */
  lemma GeoOfTwoNumbers(open: char, lat: string, lon: string, close: char, doubles: DoubleParser)
    requires ',' !in lat && ',' !in lon && lon != ""
    requires doubles(lat).Some? && doubles(lon).Some?
    ensures GeoFromCoordinates([open] + lat + "," + lon + [close], doubles)
         == Success(GeoLocation(doubles(lat).value, doubles(lon).value))
  {
    var c := [open] + lat + "," + lon + [close];
    assert c[1..|c| - 1] == lat + "," + lon;
    SplitAllPair(lat, lon);
    assert ',' in lat + "," + lon by {
      assert (lat + "," + lon)[|lat|] == ',';
    }
  }

  /** A missing longitude ("[12.5,]") is an index error: the trailing empty piece is
      dropped by `split`. */
  lemma GeoWithoutLongitude(open: char, lat: string, close: char, doubles: DoubleParser)
    requires ',' !in lat && doubles(lat).Some?
    ensures GeoFromCoordinates([open] + lat + "," + [close], doubles) == Failure(IndexOutOfBounds)
  {
    var c := [open] + lat + "," + [close];
    assert c[1..|c| - 1] == lat + "," + "";
    SplitAllPair(lat, "");
    assert ',' in lat + "," + "" by {
      assert (lat + "," + "")[|lat|] == ',';
    }
    assert DropTrailingEmpty([lat, ""]) == DropTrailingEmpty([lat]);
  }

  /** `getJSONObject("geo").getString("coordinates")`, then the cutting above. */
  function GeoOf(json: Json, doubles: DoubleParser): (r: Result<GeoLocation>)
    ensures r.Success? ==> GetJSONObject(json, "geo").Success?
  {
    var geo :- GetJSONObject(json, "geo");
    var coordinates :- GetString(geo, "coordinates");
    GeoFromCoordinates(coordinates, doubles)
  }

  /** The form the service sends: `"geo": {"coordinates": [lat, long]}`. `getString` on
      the array gives its JSON text, whose brackets the cutting removes. */
  lemma GeoOfCoordinateArray(json: Json, lat: Json, lon: Json, doubles: DoubleParser)
    requires json.JObj? && lat.JReal? && lon.JReal?
    requires ',' !in lat.text && ',' !in lon.text && lon.text != ""
    requires doubles(lat.text) == Some(lat.r) && doubles(lon.text) == Some(lon.r)
    requires Opt(json, "geo") == Some(JObj([("coordinates", JArr([lat, lon]))]))
    ensures GeoOf(json, doubles) == Success(GeoLocation(lat.r, lon.r))
  {
    var geo := JObj([("coordinates", JArr([lat, lon]))]);
    assert Opt(geo, "coordinates") == Some(JArr([lat, lon]));
    assert RenderAtoms([lon]) == Some(lon.text);
    assert RenderAtoms([lat, lon]) == Some(lat.text + "," + lon.text) by {
      assert [lat, lon][1..] == [lon];
    }
    var text := lat.text + "," + lon.text;
    assert Render(JArr([lat, lon])) == Some("[" + text + "]");
    assert GetString(geo, "coordinates") == Success("[" + text + "]");
    assert "[" + text + "]" == ['['] + lat.text + "," + lon.text + [']'];
    GeoOfTwoNumbers('[', lat.text, lon.text, ']', doubles);
  }

  // ---- the members createStatus and createUser read ----

  /** `retweeted_status` when it is an object. Any other non-null value makes
      `getJSONObject` throw a JSONException, which the mapper swallows. */
  function RetweetedJson(json: Json): (r: Option<Json>)
    ensures r.Some? ==> r.value.JObj? && r.value < json
    ensures r.Some? <==> !IsNull(json, "retweeted_status") && GetJSONObject(json, "retweeted_status").Success?
  {
    if IsNull(json, "retweeted_status") then None
    else
      match GetJSONObject(json, "retweeted_status")
      case Success(v) => Some(v)
      case Failure(_) => None
  }

  datatype ReplyFields = ReplyFields(statusId: int, userId: int, userScreenName: Option<string>)

  /** The scalar part of a status, as `createStatus` reads it. */
  datatype StatusFields = StatusFields(
    id: int,
    text: Option<string>,
    source: Option<string>,
    createdAt: Option<Date>,
    truncated: bool,
    favorited: bool,
    inReplyTo: Option<ReplyFields>)

  /** The reads `createStatus` makes before the nested objects, in its order: the ids and
      the date through the tolerant extractors, and the reply block only when the reply
      status id is non-negative (absent reads as -1, so no block). */
  function ReadStatus(json: Json, dates: DateParser): (r: Result<StatusFields>)
    ensures r.Success? <==>
      && ParseUtil.GetLong("id", json).Success?
      && GetDate("created_at", json, StatusDate, dates).Success?
      && ParseUtil.GetLong("in_reply_to_status_id", json).Success?
      && (ParseUtil.GetLong("in_reply_to_status_id", json).value >= 0 ==>
            ParseUtil.GetInt("in_reply_to_user_id", json).Success?)
    ensures r.Success? ==> IsLong(r.value.id)
    ensures r.Success? ==>
      (r.value.inReplyTo.Some? <==> ParseUtil.GetLong("in_reply_to_status_id", json).value >= 0)
    ensures r.Success? && r.value.inReplyTo.Some? ==>
      0 <= r.value.inReplyTo.value.statusId && IsLong(r.value.inReplyTo.value.statusId)
      && IsInt(r.value.inReplyTo.value.userId)
    ensures r.Success? && IsNull(json, "in_reply_to_status_id") ==> r.value.inReplyTo.None?
    ensures r.Success? ==>
      && r.value.id == ParseUtil.GetLong("id", json).value
      && r.value.text == GetText("text", json)
      && r.value.source == GetText("source", json)
      && r.value.createdAt == GetDate("created_at", json, StatusDate, dates).value
      && r.value.truncated == ParseUtil.GetBoolean("truncated", json)
      && r.value.favorited == ParseUtil.GetBoolean("favorited", json)
    ensures r.Success? && r.value.inReplyTo.Some? ==>
      && r.value.inReplyTo.value.statusId == ParseUtil.GetLong("in_reply_to_status_id", json).value
      && r.value.inReplyTo.value.userId == ParseUtil.GetInt("in_reply_to_user_id", json).value
      && r.value.inReplyTo.value.userScreenName == GetText("in_reply_to_screen_name", json)
  {
    var id :- ParseUtil.GetLong("id", json);
    var text := GetText("text", json);
    var source := GetText("source", json);
    var createdAt :- GetDate("created_at", json, StatusDate, dates);
    var truncated := ParseUtil.GetBoolean("truncated", json);
    var favorited := ParseUtil.GetBoolean("favorited", json);
    var replyToStatusId :- ParseUtil.GetLong("in_reply_to_status_id", json);
    if replyToStatusId >= 0 then
      var userId :- ParseUtil.GetInt("in_reply_to_user_id", json);
      var reply := ReplyFields(replyToStatusId, userId, GetText("in_reply_to_screen_name", json));
      Success(StatusFields(id, text, source, createdAt, truncated, favorited, Some(reply)))
    else
      Success(StatusFields(id, text, source, createdAt, truncated, favorited, None))
  }

  /** A status body holding only its id reads as that id with every tolerant field at its
      default: no text, no source, no date, not truncated, not favorited, no reply. */
  lemma ReadStatusOfIdOnly(n: int, dates: DateParser)
    requires IsLong(n)
    ensures ReadStatus(JObj([("id", JNum(n))]), dates) == Success(StatusFields(n, None, None, None, false, false, None))
  {
    var json := JObj([("id", JNum(n))]);
    assert Opt(json, "id") == Some(JNum(n));
    assert |json.members[0].0| != |"in_reply_to_status_id"|;
    assert Opt(json, "in_reply_to_status_id") == None;
    assert Opt(json, "created_at") == None;
    assert Opt(json, "text") == None;
    assert Opt(json, "source") == None;
    assert Opt(json, "truncated") == None;
    assert Opt(json, "favorited") == None;
  }

  /** A reply id given as the number -1 means no reply, like an absent one. */
  lemma NegativeReplyIdMeansNoReply(json: Json, dates: DateParser)
    requires ReadStatus(json, dates).Success?
    requires Opt(json, "in_reply_to_status_id") == Some(JNum(-1))
    ensures ReadStatus(json, dates).value.inReplyTo.None?
  {
  }

  /** The eight profile members `createUser` reads, in its order. */
  datatype ProfileFields = ProfileFields(
    imageUrl: string,
    backgroundColor: string,
    textColor: string,
    linkColor: string,
    sidebarFillColor: string,
    sidebarBorderColor: string,
    backgroundImageUrl: string,
    backgroundTile: bool)

  /** The profile block of `createUser`. Every member is read with the strict accessors,
      so an absent one is an error. The background-tile member is read with `getBoolean`:
      the source passes `getString`'s text to a boolean setter. */
  function ReadProfile(json: Json): (r: Result<ProfileFields>)
    ensures r.Success? <==>
      && GetString(json, "profile_image_url").Success?
      && GetString(json, "profile_background_color").Success?
      && GetString(json, "profile_text_color").Success?
      && GetString(json, "profile_link_color").Success?
      && GetString(json, "profile_sidebar_fill_color").Success?
      && GetString(json, "profile_sidebar_border_color").Success?
      && GetString(json, "profile_background_image_url").Success?
      && OrgJson.GetBoolean(json, "profile_background_tile").Success?
    ensures r.Success? ==>
      && r.value.imageUrl == GetString(json, "profile_image_url").value
      && r.value.backgroundColor == GetString(json, "profile_background_color").value
      && r.value.textColor == GetString(json, "profile_text_color").value
      && r.value.linkColor == GetString(json, "profile_link_color").value
      && r.value.sidebarFillColor == GetString(json, "profile_sidebar_fill_color").value
      && r.value.sidebarBorderColor == GetString(json, "profile_sidebar_border_color").value
      && r.value.backgroundImageUrl == GetString(json, "profile_background_image_url").value
      && r.value.backgroundTile == OrgJson.GetBoolean(json, "profile_background_tile").value
  {
    var imageUrl :- GetString(json, "profile_image_url");
    var backgroundColor :- GetString(json, "profile_background_color");
    var textColor :- GetString(json, "profile_text_color");
    var linkColor :- GetString(json, "profile_link_color");
    var sidebarFillColor :- GetString(json, "profile_sidebar_fill_color");
    var sidebarBorderColor :- GetString(json, "profile_sidebar_border_color");
    var backgroundImageUrl :- GetString(json, "profile_background_image_url");
    var backgroundTile :- OrgJson.GetBoolean(json, "profile_background_tile");
    Success(ProfileFields(imageUrl, backgroundColor, textColor, linkColor,
                          sidebarFillColor, sidebarBorderColor, backgroundImageUrl, backgroundTile))
  }

  /** The first six members `createUser` reads. */
  datatype UserNames = UserNames(
    id: int,
    name: string,
    screenName: string,
    location: string,
    description: string,
    url: string)

  /** The next four members `createUser` reads. */
  datatype UserFlags = UserFlags(isProtected: bool, geoEnabled: bool, verified: bool, followersCount: int)

  /** The members `createUser` reads after the profile. */
  datatype UserCounts = UserCounts(
    friendsCount: int,
    createdAt: Date,
    favouritesCount: int,
    utcOffset: int,
    timeZone: string,
    statusesCount: int)

  /** The scalar part of a user, as `createUser` reads it. */
  datatype UserFields = UserFields(names: UserNames, flags: UserFlags, profile: ProfileFields, counts: UserCounts)

  function ReadUserNames(json: Json): (r: Result<UserNames>)
    ensures r.Success? <==>
      && OrgJson.GetInt(json, "id").Success?
      && GetString(json, "name").Success?
      && GetString(json, "screen_name").Success?
      && GetString(json, "location").Success?
      && GetString(json, "description").Success?
      && GetString(json, "url").Success?
    ensures r.Success? ==> IsInt(r.value.id)
    ensures r.Success? ==>
      && r.value.id == OrgJson.GetInt(json, "id").value
      && r.value.name == GetString(json, "name").value
      && r.value.screenName == GetString(json, "screen_name").value
      && r.value.location == GetString(json, "location").value
      && r.value.description == GetString(json, "description").value
      && r.value.url == GetString(json, "url").value
  {
    var id :- OrgJson.GetInt(json, "id");
    var name :- GetString(json, "name");
    var screenName :- GetString(json, "screen_name");
    var location :- GetString(json, "location");
    var description :- GetString(json, "description");
    var url :- GetString(json, "url");
    Success(UserNames(id, name, screenName, location, description, url))
  }

  function ReadUserFlags(json: Json): (r: Result<UserFlags>)
    ensures r.Success? <==>
      && OrgJson.GetBoolean(json, "protected").Success?
      && OrgJson.GetBoolean(json, "geo_enabled").Success?
      && OrgJson.GetBoolean(json, "verified").Success?
      && OrgJson.GetInt(json, "followers_count").Success?
    ensures r.Success? ==> IsInt(r.value.followersCount)
    ensures r.Success? ==>
      && r.value.isProtected == OrgJson.GetBoolean(json, "protected").value
      && r.value.geoEnabled == OrgJson.GetBoolean(json, "geo_enabled").value
      && r.value.verified == OrgJson.GetBoolean(json, "verified").value
      && r.value.followersCount == OrgJson.GetInt(json, "followers_count").value
  {
    var isProtected :- OrgJson.GetBoolean(json, "protected");
    var geoEnabled :- OrgJson.GetBoolean(json, "geo_enabled");
    var verified :- OrgJson.GetBoolean(json, "verified");
    var followersCount :- OrgJson.GetInt(json, "followers_count");
    Success(UserFlags(isProtected, geoEnabled, verified, followersCount))
  }

  /** `created_at` is read with the strict `getString` and then parsed; `utc_offset` is
      the one tolerant read, -1 when absent or null. */
  function ReadUserCounts(json: Json, dates: DateParser): (r: Result<UserCounts>)
    ensures r.Success? <==>
      && OrgJson.GetInt(json, "friends_count").Success?
      && GetString(json, "created_at").Success?
      && dates(GetString(json, "created_at").value, StatusDate).Some?
      && OrgJson.GetInt(json, "favourites_count").Success?
      && ParseUtil.GetInt("utc_offset", json).Success?
      && GetString(json, "time_zone").Success?
      && OrgJson.GetInt(json, "statuses_count").Success?
    ensures r.Success? ==> Some(r.value.createdAt) == dates(GetString(json, "created_at").value, StatusDate)
    ensures r.Success? && IsNull(json, "utc_offset") ==> r.value.utcOffset == -1
    ensures r.Success? ==>
      && r.value.friendsCount == OrgJson.GetInt(json, "friends_count").value
      && r.value.favouritesCount == OrgJson.GetInt(json, "favourites_count").value
      && r.value.utcOffset == ParseUtil.GetInt("utc_offset", json).value
      && r.value.timeZone == GetString(json, "time_zone").value
      && r.value.statusesCount == OrgJson.GetInt(json, "statuses_count").value
  {
    var friendsCount :- OrgJson.GetInt(json, "friends_count");
    var createdAtText :- GetString(json, "created_at");
    var createdAt :- ParseDate(createdAtText, StatusDate, dates);
    var favouritesCount :- OrgJson.GetInt(json, "favourites_count");
    var utcOffset :- ParseUtil.GetInt("utc_offset", json);
    var timeZone :- GetString(json, "time_zone");
    var statusesCount :- OrgJson.GetInt(json, "statuses_count");
    Success(UserCounts(friendsCount, createdAt, favouritesCount, utcOffset, timeZone, statusesCount))
  }

  /** The reads `createUser` makes before the nested status, in its order: the names, the
      flags, the profile block, the counts. All use the strict accessors except
      `utc_offset`. */
  function ReadUser(json: Json, dates: DateParser): (r: Result<UserFields>)
    ensures r.Success? <==>
      && ReadUserNames(json).Success? && ReadUserFlags(json).Success?
      && ReadProfile(json).Success? && ReadUserCounts(json, dates).Success?
    ensures r.Success? ==>
      && r.value.names == ReadUserNames(json).value && r.value.flags == ReadUserFlags(json).value
      && r.value.profile == ReadProfile(json).value && r.value.counts == ReadUserCounts(json, dates).value
  {
    var names :- ReadUserNames(json);
    var flags :- ReadUserFlags(json);
    var profile :- ReadProfile(json);
    var counts :- ReadUserCounts(json, dates);
    Success(UserFields(names, flags, profile, counts))
  }

  /** A user needs an id, a name and a creation date: without one there is no user. */
  lemma ReadUserNeedsIdNameAndDate(json: Json, dates: DateParser)
    requires Opt(json, "id").None? || Opt(json, "name").None? || Opt(json, "created_at").None?
    ensures ReadUser(json, dates).Failure?
  {
  }

  /** `getString` renders a JSON null as the text "null", so a null name is read as the
      four-letter name "null" rather than rejected. */
  lemma NullNameReadsAsText(json: Json)
    requires ReadUserNames(json).Success? && Opt(json, "name") == Some(JNull)
    ensures ReadUserNames(json).value.name == "null"
  {
  }

  // ---- the mappers, as values ----

  /** What `createStatus` builds, as a value: the scalars, the author, the location and
      the retweeted status. */
  datatype StatusTree = StatusTree(
    fields: StatusFields,
    user: Option<UserTree>,
    geo: Option<GeoLocation>,
    retweeted: Option<StatusTree>)

  /** What `createUser` builds, as a value: the scalars and the latest status. */
  datatype UserTree = UserTree(fields: UserFields, status: Option<StatusTree>)

  /** `createStatus`, on values: the scalar reads, then the author, the location and
      the retweeted status. The first error ends the mapping. */
  function MapStatus(json: Json, dates: DateParser, doubles: DoubleParser): (r: Result<StatusTree>)
    requires json.JObj?
    decreases json, 1
  {
    var fields :- ReadStatus(json, dates);
    var user :- AuthorOf(json, dates, doubles);
    var geo :- LocationOf(json, doubles);
    var retweeted :- RetweetOf(json, dates, doubles);
    Success(StatusTree(fields, user, geo, retweeted))
  }

  /** The author block: nothing when `user` is null or absent; otherwise it must be an
      object, and it must map. */
  function AuthorOf(json: Json, dates: DateParser, doubles: DoubleParser): (r: Result<Option<UserTree>>)
    requires json.JObj?
    decreases json, 0
    ensures r.Success? ==> (r.value.Some? <==> !IsNull(json, "user"))
    ensures r.Success? && r.value.Some? ==>
      && GetJSONObject(json, "user").Success?
      && MapUser(GetJSONObject(json, "user").value, dates, doubles) == Success(r.value.value)
  {
    if IsNull(json, "user") then Success(None)
    else
      var userJson :- GetJSONObject(json, "user");
      var u :- MapUser(userJson, dates, doubles);
      Success(Some(u))
  }

  /** The location block: nothing when `geo` is null or absent. */
  function LocationOf(json: Json, doubles: DoubleParser): (r: Result<Option<GeoLocation>>)
    ensures IsNull(json, "geo") ==> r == Success(None)
    ensures !IsNull(json, "geo") ==> (r.Success? <==> GeoOf(json, doubles).Success?)
    ensures !IsNull(json, "geo") && r.Success? ==> r.value == Some(GeoOf(json, doubles).value)
  {
    if IsNull(json, "geo") then Success(None)
    else
      var g :- GeoOf(json, doubles);
      Success(Some(g))
  }

  /** The retweet block: nothing unless `retweeted_status` is an object; an object must
      map. */
  function RetweetOf(json: Json, dates: DateParser, doubles: DoubleParser): (r: Result<Option<StatusTree>>)
    requires json.JObj?
    decreases json, 0
    ensures r.Success? ==> (r.value.Some? <==> RetweetedJson(json).Some?)
    ensures r.Success? && r.value.Some? ==>
      MapStatus(RetweetedJson(json).value, dates, doubles) == Success(r.value.value)
  {
    match RetweetedJson(json)
    case None => Success(None)
    case Some(retweetedJson) =>
      var t :- MapStatus(retweetedJson, dates, doubles);
      Success(Some(t))
  }

  /** `createUser`, on values: the scalar reads, then the latest status. */
  function MapUser(json: Json, dates: DateParser, doubles: DoubleParser): (r: Result<UserTree>)
    requires json.JObj?
    decreases json, 1
  {
    var fields :- ReadUser(json, dates);
    var status :- LatestStatusOf(json, dates, doubles);
    Success(UserTree(fields, status))
  }

  /** The latest-status block: nothing when `status` is null or absent; otherwise it must
      be an object, and it must map. */
  function LatestStatusOf(json: Json, dates: DateParser, doubles: DoubleParser): (r: Result<Option<StatusTree>>)
    requires json.JObj?
    decreases json, 0
    ensures r.Success? ==> (r.value.Some? <==> !IsNull(json, "status"))
    ensures r.Success? && r.value.Some? ==>
      && GetJSONObject(json, "status").Success?
      && MapStatus(GetJSONObject(json, "status").value, dates, doubles) == Success(r.value.value)
  {
    if IsNull(json, "status") then Success(None)
    else
      var statusJson :- GetJSONObject(json, "status");
      var t :- MapStatus(statusJson, dates, doubles);
      Success(Some(t))
  }

  /** A mapped status holds what its scalar reads gave, an author exactly when `user` is
      non-null, a location exactly when `geo` is non-null, and a retweeted status exactly
      when `retweeted_status` is an object; each nested value is the mapping of its own
      member. */
  lemma MapStatusShape(json: Json, dates: DateParser, doubles: DoubleParser)
    requires json.JObj? && MapStatus(json, dates, doubles).Success?
    ensures var t := MapStatus(json, dates, doubles).value;
      && ReadStatus(json, dates) == Success(t.fields)
      && (t.user.Some? <==> !IsNull(json, "user"))
      && (t.geo.Some? <==> !IsNull(json, "geo"))
      && (t.retweeted.Some? <==> RetweetedJson(json).Some?)
      && (t.user.Some? ==>
            GetJSONObject(json, "user").Success?
            && MapUser(GetJSONObject(json, "user").value, dates, doubles) == Success(t.user.value))
      && (t.geo.Some? ==> GeoOf(json, doubles) == Success(t.geo.value))
      && (t.retweeted.Some? ==>
            RetweetedJson(json).Some?
            && MapStatus(RetweetedJson(json).value, dates, doubles) == Success(t.retweeted.value))
  {
    var author := AuthorOf(json, dates, doubles);
    var location := LocationOf(json, doubles);
    var retweet := RetweetOf(json, dates, doubles);
    assert author.Success? && location.Success? && retweet.Success?;
    assert MapStatus(json, dates, doubles).value
        == StatusTree(ReadStatus(json, dates).value, author.value, location.value, retweet.value);
  }

  /** A non-null author that is not an object, or that does not map, is an error. */
  lemma BadUserFailsStatus(json: Json, dates: DateParser, doubles: DoubleParser)
    requires json.JObj? && !IsNull(json, "user")
    requires GetJSONObject(json, "user").Failure? || MapUser(GetJSONObject(json, "user").value, dates, doubles).Failure?
    ensures MapStatus(json, dates, doubles).Failure?
  {
  }

  /** A `retweeted_status` that is not an object is ignored, where a non-object `user`
      is an error: the mapper swallows the exception for the first only. */
  lemma NonObjectRetweetIgnored(json: Json, dates: DateParser, doubles: DoubleParser)
    requires json.JObj? && MapStatus(json, dates, doubles).Success?
    requires Opt(json, "retweeted_status").Some? && !Opt(json, "retweeted_status").value.JObj?
    ensures MapStatus(json, dates, doubles).value.retweeted.None?
  {
  }

  /** A mapped user holds what its scalar reads gave, and a latest status exactly when
      `status` is non-null, which is the mapping of that member. */
  lemma MapUserShape(json: Json, dates: DateParser, doubles: DoubleParser)
    requires json.JObj? && MapUser(json, dates, doubles).Success?
    ensures var t := MapUser(json, dates, doubles).value;
      && ReadUser(json, dates) == Success(t.fields)
      && (t.status.Some? <==> !IsNull(json, "status"))
      && (t.status.Some? ==>
            GetJSONObject(json, "status").Success?
            && MapStatus(GetJSONObject(json, "status").value, dates, doubles) == Success(t.status.value))
  {
    var latest := LatestStatusOf(json, dates, doubles);
    assert latest.Success?;
    assert MapUser(json, dates, doubles).value == UserTree(ReadUser(json, dates).value, latest.value);
  }

  // ---- the mappers, on objects ----

  /** What the first six setter calls of `createStatus` leave in the status. Each part
      of the agreement reads only the fields it speaks of, so a later setter call
      provably leaves it intact. */
  predicate StatusScalarsHold(s: Status, f: StatusFields)
    reads s`id, s`text, s`source, s`createdAt, s`truncated, s`favorited
  {
    && s.id == f.id && s.text == f.text && s.source == f.source && s.createdAt == f.createdAt
    && s.truncated == f.truncated && s.favorited == f.favorited
  }

  /** An `InReplyTo` exactly when a reply block was read, holding that block. */
  predicate ReplyHolds(s: Status, reply: Option<ReplyFields>)
    reads s`inReplyTo, s.inReplyTo
  {
    && (s.inReplyTo != null <==> reply.Some?)
    && (s.inReplyTo != null ==>
          && s.inReplyTo.statusId == reply.value.statusId
          && s.inReplyTo.userId == reply.value.userId
          && s.inReplyTo.userScreenName == reply.value.userScreenName)
  }

  /** A status object holds the value `t`: its scalars, an `InReplyTo` exactly when a
      reply block was read (so `isInReply` holds exactly then), an author exactly when
      `t` has one, its location, a retweeted status exactly when `t` has one (so
      `isRetweet` holds exactly then). */
  predicate StatusHolds(s: Status, t: StatusTree)
    reads s`id, s`text, s`source, s`createdAt, s`truncated, s`favorited, s`inReplyTo, s.inReplyTo
    reads s`user, s`geoLocation, s`retweetedStatus
  {
    && StatusScalarsHold(s, t.fields)
    && ReplyHolds(s, t.fields.inReplyTo)
    && (s.user != null <==> t.user.Some?)
    && s.geoLocation == t.geo
    && (s.retweetedStatus != null <==> t.retweeted.Some?)
  }

  predicate ProfileAgrees(p: Profile, f: ProfileFields)
    reads p
  {
    && p.imageUrl == Some(f.imageUrl) && p.backgroundColor == Some(f.backgroundColor)
    && p.textColor == Some(f.textColor) && p.linkColor == Some(f.linkColor)
    && p.sidebarFillColor == Some(f.sidebarFillColor) && p.sidebarBorderColor == Some(f.sidebarBorderColor)
    && p.backgroundImageUrl == Some(f.backgroundImageUrl) && p.backgroundTile == f.backgroundTile
  }

  predicate UserNamesHold(u: User, f: UserNames)
    reads u`id, u`name, u`screenName, u`location, u`description, u`url
  {
    && u.id == f.id && u.name == Some(f.name) && u.screenName == Some(f.screenName)
    && u.location == Some(f.location) && u.description == Some(f.description) && u.url == Some(f.url)
  }

  predicate UserFlagsHold(u: User, f: UserFlags)
    reads u`isProtected, u`isGeoEnabled, u`isVerified, u`followersCount
  {
    && u.isProtected == f.isProtected && u.isGeoEnabled == f.geoEnabled
    && u.isVerified == f.verified && u.followersCount == f.followersCount
  }

  predicate UserCountsHold(u: User, f: UserCounts)
    reads u`friendsCount, u`createdAt, u`favouritesCount, u`utcOffset, u`timeZone, u`statusesCount
  {
    && u.friendsCount == f.friendsCount && u.createdAt == Some(f.createdAt)
    && u.favouritesCount == f.favouritesCount && u.utcOffset == f.utcOffset
    && u.timeZone == Some(f.timeZone) && u.statusesCount == f.statusesCount
  }

  /** A user object holds the value `t`: its scalars, a profile holding the profile
      members, and a latest status exactly when `t` has one. */
  predicate UserHolds(u: User, t: UserTree)
    reads u`id, u`name, u`screenName, u`location, u`description, u`url
    reads u`isProtected, u`isGeoEnabled, u`isVerified, u`followersCount, u`profile, u.profile
    reads u`friendsCount, u`createdAt, u`favouritesCount, u`utcOffset, u`timeZone, u`statusesCount
    reads u`status
  {
    && UserNamesHold(u, t.fields.names)
    && UserFlagsHold(u, t.fields.flags)
    && u.profile != null && ProfileAgrees(u.profile, t.fields.profile)
    && UserCountsHold(u, t.fields.counts)
    && (u.status != null <==> t.status.Some?)
  }

  /** Element `k` of `ss` holds element `k` of `ts`, for every `k`. */
  predicate StatusesHold(ss: seq<Status>, ts: seq<StatusTree>)
    reads set k | 0 <= k < |ss| :: ss[k]
    reads set k | 0 <= k < |ss| && ss[k].inReplyTo != null :: ss[k].inReplyTo
  {
    |ss| == |ts| && forall k :: 0 <= k < |ss| ==> StatusHolds(ss[k], ts[k])
  }

  /** Element `k` of `us` holds element `k` of `ts`, for every `k`. */
  predicate UsersHold(us: seq<User>, ts: seq<UserTree>)
    reads set k | 0 <= k < |us| :: us[k]
    reads set k | 0 <= k < |us| && us[k].profile != null :: us[k].profile
  {
    |us| == |ts| && forall k :: 0 <= k < |us| ==> UserHolds(us[k], ts[k])
  }

  lemma StatusesHoldAppend(ss: seq<Status>, ts: seq<StatusTree>, s: Status, t: StatusTree)
    requires StatusesHold(ss, ts) && StatusHolds(s, t)
    ensures StatusesHold(ss + [s], ts + [t])
  {
  }

  lemma UsersHoldAppend(us: seq<User>, ts: seq<UserTree>, u: User, t: UserTree)
    requires UsersHold(us, ts) && UserHolds(u, t)
    ensures UsersHold(us + [u], ts + [t])
  {
  }

  /** The first six setter calls of `createStatus`. */
  method SetStatusScalars(s: Status, f: StatusFields)
    modifies s`id, s`text, s`source, s`createdAt, s`truncated, s`favorited
    ensures StatusScalarsHold(s, f)
  {
    s.SetId(f.id);
    s.SetText(f.text);
    s.SetSource(f.source);
    s.SetCreatedAt(f.createdAt);
    s.SetTruncated(f.truncated);
    s.SetFavorited(f.favorited);
  }

  /** The reply block of `createStatus`. */
  method NewInReplyTo(f: ReplyFields) returns (reply: InReplyTo)
    ensures fresh(reply)
    ensures reply.statusId == f.statusId && reply.userId == f.userId && reply.userScreenName == f.userScreenName
  {
    reply := new InReplyTo();
    reply.SetStatusId(f.statusId);
    reply.SetUserId(f.userId);
    reply.SetUserScreenName(f.userScreenName);
  }

  /** `createStatus` up to the nested objects: a new status holding the scalars and the
      reply block. */
  method NewStatusFrom(f: StatusFields) returns (s: Status)
    ensures fresh(s) && (s.inReplyTo != null ==> fresh(s.inReplyTo))
    ensures StatusScalarsHold(s, f) && ReplyHolds(s, f.inReplyTo)
    ensures s.user == null && s.geoLocation == None && s.retweetedStatus == null && s.rateLimitStatus == None
  {
    s := new Status();
    SetStatusScalars(s, f);
    if f.inReplyTo.Some? {
      var reply := NewInReplyTo(f.inReplyTo.value);
      s.SetInReplyTo(reply);
    }
  }

  /** The setter calls of `createStatus` for the nested objects. */
  method SetNested(s: Status, user: User?, geo: Option<GeoLocation>, retweeted: Status?)
    requires s.user == null && s.geoLocation == None && s.retweetedStatus == null
    modifies s`user, s`geoLocation, s`retweetedStatus
    ensures s.user == user && s.geoLocation == geo && s.retweetedStatus == retweeted
  {
    if user != null {
      s.SetUser(user);
    }
    if geo.Some? {
      s.SetGeoLocation(geo);
    }
    if retweeted != null {
      s.SetRetweetedStatus(retweeted);
    }
  }

  /** The object graph `createStatus` builds for the value `t`: a new status holding
      it, whose author and retweeted status are built the same way. */
  method BuildStatus(t: StatusTree) returns (s: Status)
    decreases t
    ensures fresh(s) && StatusHolds(s, t) && s.rateLimitStatus == None
    ensures s.user != null ==> fresh(s.user) && UserHolds(s.user, t.user.value)
    ensures s.retweetedStatus != null ==> fresh(s.retweetedStatus) && StatusHolds(s.retweetedStatus, t.retweeted.value)
  {
    var user: User? := null;
    if t.user.Some? {
      user := BuildUser(t.user.value);
    }
    var retweeted: Status? := null;
    if t.retweeted.Some? {
      retweeted := BuildStatus(t.retweeted.value);
    }
    s := NewStatusFrom(t.fields);
    SetNested(s, user, t.geo, retweeted);
  }

  /** `createStatus(JSONObject)`: fails exactly when the mapping on values does, with
      the same error, and otherwise returns a new status holding the mapped value. */
  method CreateStatus(json: Json, dates: DateParser, doubles: DoubleParser) returns (r: Result<Status>)
    requires json.JObj?
    ensures r.Failure? <==> MapStatus(json, dates, doubles).Failure?
    ensures r.Failure? ==> r.error == MapStatus(json, dates, doubles).error
    ensures r.Success? ==> fresh(r.value) && StatusHolds(r.value, MapStatus(json, dates, doubles).value)
    ensures r.Success? && r.value.user != null ==>
      && GetJSONObject(json, "user").Success? && MapUser(GetJSONObject(json, "user").value, dates, doubles).Success?
      && UserHolds(r.value.user, MapUser(GetJSONObject(json, "user").value, dates, doubles).value)
    ensures r.Success? && r.value.retweetedStatus != null ==>
      && RetweetedJson(json).Some? && MapStatus(RetweetedJson(json).value, dates, doubles).Success?
      && StatusHolds(r.value.retweetedStatus, MapStatus(RetweetedJson(json).value, dates, doubles).value)
    ensures r.Success? ==> r.value.rateLimitStatus == None
  {
    var t :- MapStatus(json, dates, doubles);
    MapStatusShape(json, dates, doubles);
    var s := BuildStatus(t);
    r := Success(s);
  }

  /** The first six setter calls of `createUser`. */
  method SetUserNames(u: User, f: UserNames)
    modifies u`id, u`name, u`screenName, u`location, u`description, u`url
    ensures UserNamesHold(u, f)
  {
    u.SetId(f.id);
    u.SetName(Some(f.name));
    u.SetScreenName(Some(f.screenName));
    u.SetLocation(Some(f.location));
    u.SetDescription(Some(f.description));
    u.SetURL(Some(f.url));
  }

  /** The next four setter calls of `createUser`. */
  method SetUserFlags(u: User, f: UserFlags)
    modifies u`isProtected, u`isGeoEnabled, u`isVerified, u`followersCount
    ensures UserFlagsHold(u, f)
  {
    u.SetProtected(f.isProtected);
    u.SetGeoEnabled(f.geoEnabled);
    u.SetVerified(f.verified);
    u.SetFollowersCount(f.followersCount);
  }

  /** The profile block of `createUser`. */
  method NewProfile(f: ProfileFields) returns (profile: Profile)
    ensures fresh(profile) && ProfileAgrees(profile, f)
  {
    profile := new Profile();
    profile.SetImageUrl(Some(f.imageUrl));
    profile.SetBackgroundColor(Some(f.backgroundColor));
    profile.SetTextColor(Some(f.textColor));
    profile.SetLinkColor(Some(f.linkColor));
    profile.SetSidebarFillColor(Some(f.sidebarFillColor));
    profile.SetSidebarBorderColor(Some(f.sidebarBorderColor));
    profile.SetBackgroundImageUrl(Some(f.backgroundImageUrl));
    profile.SetBackgroundTile(f.backgroundTile);
  }

  /** The setter calls of `createUser` after the profile. */
  method SetUserCounts(u: User, f: UserCounts)
    modifies u`friendsCount, u`createdAt, u`favouritesCount, u`utcOffset, u`timeZone, u`statusesCount
    ensures UserCountsHold(u, f)
  {
    u.SetFriendsCount(f.friendsCount);
    u.SetCreatedAt(Some(f.createdAt));
    u.SetFavouritesCount(f.favouritesCount);
    u.SetUtcOffset(f.utcOffset);
    u.SetTimeZone(Some(f.timeZone));
    u.SetStatusesCount(f.statusesCount);
  }

  /** The setter calls of `createUser` before the profile. */
  method SetUserHead(u: User, f: UserFields)
    modifies u`id, u`name, u`screenName, u`location, u`description, u`url
    modifies u`isProtected, u`isGeoEnabled, u`isVerified, u`followersCount
    ensures UserNamesHold(u, f.names) && UserFlagsHold(u, f.flags)
  {
    SetUserNames(u, f.names);
    SetUserFlags(u, f.flags);
  }

  /** The profile setter call of `createUser` and the calls after it. */
  method SetUserTail(u: User, profile: Profile, f: UserCounts)
    modifies u`profile, u`friendsCount, u`createdAt, u`favouritesCount, u`utcOffset, u`timeZone, u`statusesCount
    ensures u.profile == profile && UserCountsHold(u, f)
  {
    u.SetProfile(profile);
    SetUserCounts(u, f);
  }

  /** `createUser` up to the nested status: a new user holding the scalars and a new
      profile. */
  method NewUserFrom(f: UserFields) returns (u: User)
    ensures fresh(u) && fresh(u.profile)
    ensures UserNamesHold(u, f.names) && UserFlagsHold(u, f.flags) && UserCountsHold(u, f.counts)
    ensures u.profile != null && ProfileAgrees(u.profile, f.profile)
    ensures u.status == null && u.rateLimitStatus == None
  {
    u := new User();
    SetUserHead(u, f);
    var profile := NewProfile(f.profile);
    SetUserTail(u, profile, f.counts);
  }

  /** The object graph `createUser` builds for the value `t`: a new user holding it,
      whose latest status is built the same way. */
  method BuildUser(t: UserTree) returns (u: User)
    decreases t
    ensures fresh(u) && fresh(u.profile) && UserHolds(u, t) && u.rateLimitStatus == None
    ensures u.status != null ==> fresh(u.status) && StatusHolds(u.status, t.status.value)
  {
    u := NewUserFrom(t.fields);
    if t.status.Some? {
      var status := BuildStatus(t.status.value);
      u.SetStatus(status);
    }
  }

  /** `createUser(JSONObject)`: fails exactly when the mapping on values does, with the
      same error, and otherwise returns a new user holding the mapped value. */
  method CreateUser(json: Json, dates: DateParser, doubles: DoubleParser) returns (r: Result<User>)
    requires json.JObj?
    ensures r.Failure? <==> MapUser(json, dates, doubles).Failure?
    ensures r.Failure? ==> r.error == MapUser(json, dates, doubles).error
    ensures r.Success? ==> fresh(r.value) && UserHolds(r.value, MapUser(json, dates, doubles).value)
    ensures r.Success? && r.value.status != null ==>
      && GetJSONObject(json, "status").Success? && MapStatus(GetJSONObject(json, "status").value, dates, doubles).Success?
      && StatusHolds(r.value.status, MapStatus(GetJSONObject(json, "status").value, dates, doubles).value)
    ensures r.Success? ==> r.value.rateLimitStatus == None
  {
    var t :- MapUser(json, dates, doubles);
    MapUserShape(json, dates, doubles);
    var u := BuildUser(t);
    r := Success(u);
  }

  // ---- responses and lists ----

  /** `createStatus(JSONObject)` as the element mapping of a list: a non-object element
      is the JSONException of `getJSONObject(i)`. */
  function StatusMapping(dates: DateParser, doubles: DoubleParser): Json -> Result<StatusTree> {
    (json: Json) => if json.JObj? then MapStatus(json, dates, doubles) else Failure(JsonError)
  }

  /** `createUser(JSONObject)` as the element mapping of a list. */
  function UserMapping(dates: DateParser, doubles: DoubleParser): Json -> Result<UserTree> {
    (json: Json) => if json.JObj? then MapUser(json, dates, doubles) else Failure(JsonError)
  }

  /** The rate-limit setter call of the response variants, which leaves the rest of the
      status as it was. */
  method SetStatusRateLimit(s: Status, rateLimit: Option<RateLimitStatus>, ghost t: StatusTree)
    requires StatusHolds(s, t)
    requires s.user != null ==> t.user.Some? && UserHolds(s.user, t.user.value)
    requires s.retweetedStatus != null ==> t.retweeted.Some? && StatusHolds(s.retweetedStatus, t.retweeted.value)
    modifies s`rateLimitStatus
    ensures StatusHolds(s, t) && s.rateLimitStatus == rateLimit
    ensures s.user != null ==> UserHolds(s.user, t.user.value)
    ensures s.retweetedStatus != null ==> StatusHolds(s.retweetedStatus, t.retweeted.value)
  {
    s.SetRateLimitStatus(rateLimit);
  }

  /** The rate-limit setter call of the response variants, which leaves the rest of the
      user as it was. */
  method SetUserRateLimit(u: User, rateLimit: Option<RateLimitStatus>, ghost t: UserTree)
    requires UserHolds(u, t)
    requires u.status != null ==> t.status.Some? && StatusHolds(u.status, t.status.value)
    modifies u`rateLimitStatus
    ensures UserHolds(u, t) && u.rateLimitStatus == rateLimit
    ensures u.status != null ==> StatusHolds(u.status, t.status.value)
  {
    u.SetRateLimitStatus(rateLimit);
  }

  /** `createStatus(Response)`: the rate-limit headers are read first, so a malformed
      header is reported even for a body that is not an object; then the body is mapped
      and the new status carries the headers' rate limit. `now` is the clock. */
  method CreateStatusOfResponse(res: Response, now: int, dates: DateParser, doubles: DoubleParser)
    returns (r: Result<Status>)
    ensures FromHeaders(res, now).Failure? ==> r == Failure(FromHeaders(res, now).error)
    ensures FromHeaders(res, now).Success? && !res.body.JObj? ==> r == Failure(JsonError)
    ensures FromHeaders(res, now).Success? && res.body.JObj? ==>
      (r.Success? <==> MapStatus(res.body, dates, doubles).Success?)
      && (r.Failure? ==> r.error == MapStatus(res.body, dates, doubles).error)
    ensures r.Success? ==>
      && fresh(r.value) && StatusHolds(r.value, MapStatus(res.body, dates, doubles).value)
      && r.value.rateLimitStatus == FromHeaders(res, now).value
    ensures r.Success? && r.value.user != null ==>
      && GetJSONObject(res.body, "user").Success? && MapUser(GetJSONObject(res.body, "user").value, dates, doubles).Success?
      && UserHolds(r.value.user, MapUser(GetJSONObject(res.body, "user").value, dates, doubles).value)
    ensures r.Success? && r.value.retweetedStatus != null ==>
      && RetweetedJson(res.body).Some? && MapStatus(RetweetedJson(res.body).value, dates, doubles).Success?
      && StatusHolds(r.value.retweetedStatus, MapStatus(RetweetedJson(res.body).value, dates, doubles).value)
  {
    var rateLimit :- FromHeaders(res, now);
    var json :- res.AsJSONObject();
    var result :- CreateStatus(json, dates, doubles);
    MapStatusShape(json, dates, doubles);
    SetStatusRateLimit(result, rateLimit, MapStatus(json, dates, doubles).value);
    r := Success(result);
  }

  /** `createUser(Response)`: the headers first, then the body. */
  method CreateUserOfResponse(res: Response, now: int, dates: DateParser, doubles: DoubleParser)
    returns (r: Result<User>)
    ensures FromHeaders(res, now).Failure? ==> r == Failure(FromHeaders(res, now).error)
    ensures FromHeaders(res, now).Success? && !res.body.JObj? ==> r == Failure(JsonError)
    ensures FromHeaders(res, now).Success? && res.body.JObj? ==>
      (r.Success? <==> MapUser(res.body, dates, doubles).Success?)
      && (r.Failure? ==> r.error == MapUser(res.body, dates, doubles).error)
    ensures r.Success? ==>
      && fresh(r.value) && UserHolds(r.value, MapUser(res.body, dates, doubles).value)
      && r.value.rateLimitStatus == FromHeaders(res, now).value
    ensures r.Success? && r.value.status != null ==>
      && GetJSONObject(res.body, "status").Success? && MapStatus(GetJSONObject(res.body, "status").value, dates, doubles).Success?
      && StatusHolds(r.value.status, MapStatus(GetJSONObject(res.body, "status").value, dates, doubles).value)
  {
    var rateLimit :- FromHeaders(res, now);
    var json :- res.AsJSONObject();
    var result :- CreateUser(json, dates, doubles);
    MapUserShape(json, dates, doubles);
    SetUserRateLimit(result, rateLimit, MapUser(json, dates, doubles).value);
    r := Success(result);
  }

  /** `BuildStatus`, which leaves the statuses built before untouched. */
  method BuildStatusAfter(ghost ss: seq<Status>, ghost done: seq<StatusTree>, t: StatusTree) returns (s: Status)
    requires StatusesHold(ss, done)
    ensures fresh(s) && StatusHolds(s, t) && StatusesHold(ss, done)
  {
    s := BuildStatus(t);
  }

  /** One turn of a building loop: a new status for element `i` of `ts`, after those
      for the elements before it. */
  method AppendStatus(ss: seq<Status>, ts: seq<StatusTree>, i: nat) returns (s: Status)
    requires i < |ts| && StatusesHold(ss, ts[..i])
    ensures fresh(s) && StatusesHold(ss + [s], ts[..i + 1])
  {
    assert ts[..i] + [ts[i]] == ts[..i + 1];
    s := BuildStatusAfter(ss, ts[..i], ts[i]);
    StatusesHoldAppend(ss, ts[..i], s, ts[i]);
  }

  /** The building half of the loop of `createStatusList`: one new status per mapped
      element, in order. */
  method BuildStatuses(ts: seq<StatusTree>) returns (ss: seq<Status>)
    ensures |ss| == |ts| && (forall k :: 0 <= k < |ss| ==> fresh(ss[k])) && StatusesHold(ss, ts)
  {
    ss := [];
    var i := 0;
    while i < |ts|
      invariant 0 <= i <= |ts|
      invariant |ss| == i && forall k :: 0 <= k < i ==> fresh(ss[k])
      invariant StatusesHold(ss, ts[..i])
    {
      var s := AppendStatus(ss, ts, i);
      ss := ss + [s];
      i := i + 1;
    }
    assert ts[..i] == ts;
  }

  /** `BuildUser`, which leaves the users built before untouched. */
  method BuildUserAfter(ghost us: seq<User>, ghost done: seq<UserTree>, t: UserTree) returns (u: User)
    requires UsersHold(us, done)
    ensures fresh(u) && UserHolds(u, t) && UsersHold(us, done)
  {
    u := BuildUser(t);
  }

  /** One turn of a building loop: a new user for element `i` of `ts`, after those
      for the elements before it. */
  method AppendUser(us: seq<User>, ts: seq<UserTree>, i: nat) returns (u: User)
    requires i < |ts| && UsersHold(us, ts[..i])
    ensures fresh(u) && UsersHold(us + [u], ts[..i + 1])
  {
    assert ts[..i] + [ts[i]] == ts[..i + 1];
    u := BuildUserAfter(us, ts[..i], ts[i]);
    UsersHoldAppend(us, ts[..i], u, ts[i]);
  }

  /** The building half of the loop of the user lists. */
  method BuildUsers(ts: seq<UserTree>) returns (us: seq<User>)
    ensures |us| == |ts| && (forall k :: 0 <= k < |us| ==> fresh(us[k])) && UsersHold(us, ts)
  {
    us := [];
    var i := 0;
    while i < |ts|
      invariant 0 <= i <= |ts|
      invariant |us| == i && forall k :: 0 <= k < i ==> fresh(us[k])
      invariant UsersHold(us, ts[..i])
    {
      var u := AppendUser(us, ts, i);
      us := us + [u];
      i := i + 1;
    }
    assert ts[..i] == ts;
  }

  /** The mapped elements of an array of statuses: element `k` of the mapping is the
      mapping of JSON element `k`, which is an object. */
  lemma MappedStatusElements(items: seq<Json>, dates: DateParser, doubles: DoubleParser)
    requires MapObjects(items, StatusMapping(dates, doubles)).Success?
    ensures var ts := MapObjects(items, StatusMapping(dates, doubles)).value;
      |ts| == |items| && forall k :: 0 <= k < |ts| ==>
        items[k].JObj? && MapStatus(items[k], dates, doubles) == Success(ts[k])
  {
    MapObjectsSucceeds(items, StatusMapping(dates, doubles));
  }

  /** The mapped elements of an array of users, as for statuses. */
  lemma MappedUserElements(items: seq<Json>, dates: DateParser, doubles: DoubleParser)
    requires MapObjects(items, UserMapping(dates, doubles)).Success?
    ensures var ts := MapObjects(items, UserMapping(dates, doubles)).value;
      |ts| == |items| && forall k :: 0 <= k < |ts| ==>
        items[k].JObj? && MapUser(items[k], dates, doubles) == Success(ts[k])
  {
    MapObjectsSucceeds(items, UserMapping(dates, doubles));
  }

  /** Statuses built for the mapped elements of an array: status `k` holds the mapping
      of JSON element `k`. */
  lemma StatusesOfElements(ss: seq<Status>, items: seq<Json>, dates: DateParser, doubles: DoubleParser)
    requires MapObjects(items, StatusMapping(dates, doubles)).Success?
    requires StatusesHold(ss, MapObjects(items, StatusMapping(dates, doubles)).value)
    ensures |ss| == |items| && forall k :: 0 <= k < |ss| ==>
      items[k].JObj? && MapStatus(items[k], dates, doubles).Success?
      && StatusHolds(ss[k], MapStatus(items[k], dates, doubles).value)
  {
    MappedStatusElements(items, dates, doubles);
  }

  /** Users built for the mapped elements of an array: user `k` holds the mapping of
      JSON element `k`. */
  lemma UsersOfElements(us: seq<User>, items: seq<Json>, dates: DateParser, doubles: DoubleParser)
    requires MapObjects(items, UserMapping(dates, doubles)).Success?
    requires UsersHold(us, MapObjects(items, UserMapping(dates, doubles)).value)
    ensures |us| == |items| && forall k :: 0 <= k < |us| ==>
      items[k].JObj? && MapUser(items[k], dates, doubles).Success?
      && UserHolds(us[k], MapUser(items[k], dates, doubles).value)
  {
    MappedUserElements(items, dates, doubles);
  }

  /** `createStatusList`: the body must be an array, checked before the rate-limit
      headers are read; then the elements are mapped left to right, the first one that
      is not an object or does not map ending the list with its error. */
  method CreateStatusList(res: Response, now: int, dates: DateParser, doubles: DoubleParser)
    returns (r: Result<ResponseList<Status>>)
    ensures !res.body.JArr? ==> r == Failure(JsonError)
    ensures res.body.JArr? && FromHeaders(res, now).Failure? ==> r == Failure(FromHeaders(res, now).error)
    ensures res.body.JArr? && FromHeaders(res, now).Success? ==>
      && (r.Success? <==> MapObjects(res.body.items, StatusMapping(dates, doubles)).Success?)
      && (r.Failure? ==> r.error == MapObjects(res.body.items, StatusMapping(dates, doubles)).error)
    ensures r.Success? ==>
      && r.value.rateLimitStatus == FromHeaders(res, now).value
      && (forall k :: 0 <= k < |r.value.items| ==> fresh(r.value.items[k]))
      && StatusesHold(r.value.items, MapObjects(res.body.items, StatusMapping(dates, doubles)).value)
    ensures r.Success? ==> |r.value.items| == |res.body.items| && forall k :: 0 <= k < |r.value.items| ==>
      res.body.items[k].JObj? && MapStatus(res.body.items[k], dates, doubles).Success?
      && StatusHolds(r.value.items[k], MapStatus(res.body.items[k], dates, doubles).value)
  {
    var list :- res.AsJSONArray();
    var rateLimit :- FromHeaders(res, now);
    var trees :- MapObjects(list, StatusMapping(dates, doubles));
    var statuses := BuildStatuses(trees);
    StatusesOfElements(statuses, list, dates, doubles);
    r := Success(ResponseList(statuses, rateLimit));
  }

  /** `createUserResponseList`: the body must be an array, checked before the headers;
      then the elements are mapped left to right. */
  method CreateUserResponseList(res: Response, now: int, dates: DateParser, doubles: DoubleParser)
    returns (r: Result<ResponseList<User>>)
    ensures !res.body.JArr? ==> r == Failure(JsonError)
    ensures res.body.JArr? && FromHeaders(res, now).Failure? ==> r == Failure(FromHeaders(res, now).error)
    ensures res.body.JArr? && FromHeaders(res, now).Success? ==>
      && (r.Success? <==> MapObjects(res.body.items, UserMapping(dates, doubles)).Success?)
      && (r.Failure? ==> r.error == MapObjects(res.body.items, UserMapping(dates, doubles)).error)
    ensures r.Success? ==>
      && r.value.rateLimitStatus == FromHeaders(res, now).value
      && (forall k :: 0 <= k < |r.value.items| ==> fresh(r.value.items[k]))
      && UsersHold(r.value.items, MapObjects(res.body.items, UserMapping(dates, doubles)).value)
    ensures r.Success? ==> |r.value.items| == |res.body.items| && forall k :: 0 <= k < |r.value.items| ==>
      res.body.items[k].JObj? && MapUser(res.body.items[k], dates, doubles).Success?
      && UserHolds(r.value.items[k], MapUser(res.body.items[k], dates, doubles).value)
  {
    var list :- res.AsJSONArray();
    var rateLimit :- FromHeaders(res, now);
    var trees :- MapObjects(list, UserMapping(dates, doubles));
    var users := BuildUsers(trees);
    UsersOfElements(users, list, dates, doubles);
    r := Success(ResponseList(users, rateLimit));
  }

  /** `createPagableUserResponseList`: the body must be an object whose `users` member is
      an array; then the headers; then the two cursors through the tolerant `getLong`
      (-1 when absent); then the elements. */
  method CreatePagableUserResponseList(res: Response, now: int, dates: DateParser, doubles: DoubleParser)
    returns (r: Result<PagableResponseList<User>>)
    ensures !res.body.JObj? || GetJSONArray(res.body, "users").Failure? ==> r == Failure(JsonError)
    ensures r.Success? ==>
      && GetJSONArray(res.body, "users").Success?
      && FromHeaders(res, now) == Success(r.value.rateLimitStatus)
      && ParseUtil.GetLong("previous_cursor", res.body) == Success(r.value.previousCursor)
      && ParseUtil.GetLong("next_cursor", res.body) == Success(r.value.nextCursor)
      && MapObjects(GetJSONArray(res.body, "users").value, UserMapping(dates, doubles)).Success?
      && (forall k :: 0 <= k < |r.value.items| ==> fresh(r.value.items[k]))
      && UsersHold(r.value.items, MapObjects(GetJSONArray(res.body, "users").value, UserMapping(dates, doubles)).value)
    ensures
      && res.body.JObj? && GetJSONArray(res.body, "users").Success?
      && FromHeaders(res, now).Success?
      && ParseUtil.GetLong("previous_cursor", res.body).Success?
      && ParseUtil.GetLong("next_cursor", res.body).Success?
      && MapObjects(GetJSONArray(res.body, "users").value, UserMapping(dates, doubles)).Success?
      ==> r.Success?
    ensures r.Success? ==>
      var users := GetJSONArray(res.body, "users").value;
      |r.value.items| == |users| && forall k :: 0 <= k < |r.value.items| ==>
        users[k].JObj? && MapUser(users[k], dates, doubles).Success?
        && UserHolds(r.value.items[k], MapUser(users[k], dates, doubles).value)
  {
    var json :- res.AsJSONObject();
    var list :- GetJSONArray(json, "users");
    var rateLimit :- FromHeaders(res, now);
    var previousCursor :- ParseUtil.GetLong("previous_cursor", json);
    var nextCursor :- ParseUtil.GetLong("next_cursor", json);
    var trees :- MapObjects(list, UserMapping(dates, doubles));
    var users := BuildUsers(trees);
    UsersOfElements(users, list, dates, doubles);
    r := Success(PagableResponseList(users, rateLimit, previousCursor, nextCursor));
  }
}
