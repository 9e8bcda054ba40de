/** `createDirectMessage`, `createUserList` and `createRelationship` with their response
    and list variants, and the two streaming notices. As for statuses and users, each
    mapper is a function on values that makes every read and raises every error, and a
    method that builds the objects for a mapped value by the source's setter calls. */
module EntityMapper {
  import opened Wrappers
  import opened JavaNumbers
  import opened OrgJson
  import opened ParseUtil
  import opened ValueTypes
  import opened StatusAndUser
  import opened RateLimits
  import opened JsonArrays
  import opened StatusMapper
  import opened DirectMessages
  import opened UserLists
  import opened Relationships

  // ---- direct messages ----

  /** The scalar part of a direct message, as `createDirectMessage` reads it. */
  datatype MessageFields = MessageFields(
    id: int,
    text: Option<string>,
    senderId: int,
    recipientId: int,
    createdAt: Option<Date>,
    senderScreenName: Option<string>,
    recipientScreenName: Option<string>)

  /** The scalar reads of `createDirectMessage`, all through the tolerant extractors:
      absent ids read as -1 and absent texts and date as null. */
  function ReadMessage(json: Json, dates: DateParser): (r: Result<MessageFields>)
    ensures r.Success? <==>
      && ParseUtil.GetInt("id", json).Success?
      && ParseUtil.GetInt("sender_id", json).Success?
      && ParseUtil.GetInt("recipient_id", json).Success?
      && GetDate("created_at", json, StatusDate, dates).Success?
    ensures r.Success? ==> IsInt(r.value.id) && IsInt(r.value.senderId) && IsInt(r.value.recipientId)
    ensures r.Success? && IsNull(json, "sender_id") ==> r.value.senderId == -1
    ensures r.Success? ==>
      && r.value.id == ParseUtil.GetInt("id", json).value
      && r.value.text == GetText("text", json)
      && r.value.senderId == ParseUtil.GetInt("sender_id", json).value
      && r.value.recipientId == ParseUtil.GetInt("recipient_id", json).value
      && r.value.createdAt == GetDate("created_at", json, StatusDate, dates).value
      && r.value.senderScreenName == GetText("sender_screen_name", json)
      && r.value.recipientScreenName == GetText("recipient_screen_name", json)
  {
    var id :- ParseUtil.GetInt("id", json);
    var text := GetText("text", json);
    var senderId :- ParseUtil.GetInt("sender_id", json);
    var recipientId :- ParseUtil.GetInt("recipient_id", json);
    var createdAt :- GetDate("created_at", json, StatusDate, dates);
    var senderScreenName := GetText("sender_screen_name", json);
    var recipientScreenName := GetText("recipient_screen_name", json);
    Success(MessageFields(id, text, senderId, recipientId, createdAt, senderScreenName, recipientScreenName))
  }

  /** What `createDirectMessage` builds, as a value. */
  datatype MessageTree = MessageTree(fields: MessageFields, sender: UserTree, recipient: UserTree)

  /** `createDirectMessage`, on values: the scalars, then the sender and the recipient,
      both required to be objects that map to users. */
  function MapMessage(json: Json, dates: DateParser, doubles: DoubleParser): (r: Result<MessageTree>)
    requires json.JObj?
  {
    var fields :- ReadMessage(json, dates);
    var senderJson :- GetJSONObject(json, "sender");
    var sender :- MapUser(senderJson, dates, doubles);
    var recipientJson :- GetJSONObject(json, "recipient");
    var recipient :- MapUser(recipientJson, dates, doubles);
    Success(MessageTree(fields, sender, recipient))
  }

  /** A mapped message has both users, each mapped from its own member, while its two
      ids come from the `sender_id` and `recipient_id` members: nothing ties a message's
      `senderId` to its sender's id. */
  lemma MapMessageShape(json: Json, dates: DateParser, doubles: DoubleParser)
    requires json.JObj? && MapMessage(json, dates, doubles).Success?
    ensures var t := MapMessage(json, dates, doubles).value;
      && ReadMessage(json, dates) == Success(t.fields)
      && ParseUtil.GetInt("sender_id", json) == Success(t.fields.senderId)
      && ParseUtil.GetInt("recipient_id", json) == Success(t.fields.recipientId)
      && GetJSONObject(json, "sender").Success?
      && MapUser(GetJSONObject(json, "sender").value, dates, doubles) == Success(t.sender)
      && GetJSONObject(json, "recipient").Success?
      && MapUser(GetJSONObject(json, "recipient").value, dates, doubles) == Success(t.recipient)
  {
    var senderJson := GetJSONObject(json, "sender");
    assert senderJson.Success?;
    var sender := MapUser(senderJson.value, dates, doubles);
    assert sender.Success?;
    var recipientJson := GetJSONObject(json, "recipient");
    assert recipientJson.Success?;
    var recipient := MapUser(recipientJson.value, dates, doubles);
    assert recipient.Success?;
    assert MapMessage(json, dates, doubles).value
        == MessageTree(ReadMessage(json, dates).value, sender.value, recipient.value);
  }

  /** A message without a sender or a recipient object is an error, unlike a status
      without an author. */
  lemma MessageNeedsBothUsers(json: Json, dates: DateParser, doubles: DoubleParser)
    requires json.JObj?
    requires IsNull(json, "sender") || IsNull(json, "recipient")
    ensures MapMessage(json, dates, doubles).Failure?
  {
  }

  predicate MessageScalarsHold(m: DirectMessage, f: MessageFields)
    reads m`id, m`text, m`senderId, m`recipientId, m`createdAt, m`senderScreenName, m`recipientScreenName
  {
    && m.id == f.id && m.text == f.text && m.senderId == f.senderId && m.recipientId == f.recipientId
    && m.createdAt == f.createdAt && m.senderScreenName == f.senderScreenName
    && m.recipientScreenName == f.recipientScreenName
  }

  /** A message object holds the value `t`: its scalars and two distinct users holding
      the sender and the recipient. */
  predicate MessageHolds(m: DirectMessage, t: MessageTree)
    reads m`id, m`text, m`senderId, m`recipientId, m`createdAt, m`senderScreenName, m`recipientScreenName
    reads m`sender, m`recipient, m.sender, m.recipient
    reads if m.sender != null then {m.sender.profile} else {}
    reads if m.recipient != null then {m.recipient.profile} else {}
  {
    && MessageScalarsHold(m, t.fields)
    && m.sender != null && m.recipient != null && m.sender != m.recipient
    && UserHolds(m.sender, t.sender) && UserHolds(m.recipient, t.recipient)
  }

  /** The setter calls of `createDirectMessage` on a new message: the seven scalars,
      then the two users. */
  method NewMessageWith(f: MessageFields, sender: User, recipient: User) returns (m: DirectMessage)
    ensures fresh(m) && MessageScalarsHold(m, f)
    ensures m.sender == sender && m.recipient == recipient && m.rateLimitStatus == None
  {
    m := new DirectMessage();
    m.SetId(f.id);
    m.SetText(f.text);
    m.SetSenderId(f.senderId);
    m.SetRecipientId(f.recipientId);
    m.SetCreatedAt(f.createdAt);
    m.SetSenderScreenName(f.senderScreenName);
    m.SetRecipientScreenName(f.recipientScreenName);
    m.SetSender(sender);
    m.SetRecipient(recipient);
  }

  /** The object graph `createDirectMessage` builds for the value `t`: a new message
      with two new users. */
  method BuildMessage(t: MessageTree) returns (m: DirectMessage)
    ensures fresh(m) && fresh(m.sender) && fresh(m.recipient)
    ensures MessageHolds(m, t) && m.rateLimitStatus == None
  {
    var sender := BuildUser(t.sender);
    var recipient := BuildUser(t.recipient);
    m := NewMessageWith(t.fields, sender, recipient);
  }

  /** `createDirectMessage(JSONObject)`. */
  method CreateDirectMessage(json: Json, dates: DateParser, doubles: DoubleParser) returns (r: Result<DirectMessage>)
    requires json.JObj?
    ensures r.Failure? <==> MapMessage(json, dates, doubles).Failure?
    ensures r.Failure? ==> r.error == MapMessage(json, dates, doubles).error
    ensures r.Success? ==> fresh(r.value) && MessageHolds(r.value, MapMessage(json, dates, doubles).value)
    ensures r.Success? ==> r.value.rateLimitStatus == None
  {
    var t :- MapMessage(json, dates, doubles);
    var m := BuildMessage(t);
    r := Success(m);
  }

  method SetMessageRateLimit(m: DirectMessage, rateLimit: Option<RateLimitStatus>, ghost t: MessageTree)
    requires MessageHolds(m, t)
    modifies m`rateLimitStatus
    ensures MessageHolds(m, t) && m.rateLimitStatus == rateLimit
  {
    m.SetRateLimitStatus(rateLimit);
  }

  /** `createDirectMessage(Response)`: the headers first, then the body. */
  method CreateDirectMessageOfResponse(res: Response, now: int, dates: DateParser, doubles: DoubleParser)
    returns (r: Result<DirectMessage>)
    ensures FromHeaders(res, now).Failure? ==> r == Failure(FromHeaders(res, now).error)
    ensures FromHeaders(res, now).Success? && !res.body.JObj? ==> r == Failure(JsonError)
    ensures FromHeaders(res, now).Success? && res.body.JObj? ==>
      (r.Success? <==> MapMessage(res.body, dates, doubles).Success?)
      && (r.Failure? ==> r.error == MapMessage(res.body, dates, doubles).error)
    ensures r.Success? ==>
      && fresh(r.value) && MessageHolds(r.value, MapMessage(res.body, dates, doubles).value)
      && r.value.rateLimitStatus == FromHeaders(res, now).value
  {
    var rateLimit :- FromHeaders(res, now);
    var json :- res.AsJSONObject();
    var result :- CreateDirectMessage(json, dates, doubles);
    SetMessageRateLimit(result, rateLimit, MapMessage(json, dates, doubles).value);
    r := Success(result);
  }

  /** `createDirectMessage(JSONObject)` as the element mapping of a list. */
  function MessageMapping(dates: DateParser, doubles: DoubleParser): Json -> Result<MessageTree> {
    (json: Json) => if json.JObj? then MapMessage(json, dates, doubles) else Failure(JsonError)
  }

  /** Element `k` of `ms` holds element `k` of `ts`. */
  predicate MessagesHold(ms: seq<DirectMessage>, ts: seq<MessageTree>)
    reads set k | 0 <= k < |ms| :: ms[k]
    reads set k | 0 <= k < |ms| && ms[k].sender != null :: ms[k].sender
    reads set k | 0 <= k < |ms| && ms[k].recipient != null :: ms[k].recipient
    reads set k | 0 <= k < |ms| && ms[k].sender != null :: ms[k].sender.profile
    reads set k | 0 <= k < |ms| && ms[k].recipient != null :: ms[k].recipient.profile
  {
    |ms| == |ts| && forall k :: 0 <= k < |ms| ==> MessageHolds(ms[k], ts[k])
  }

  lemma MessagesHoldAppend(ms: seq<DirectMessage>, ts: seq<MessageTree>, m: DirectMessage, t: MessageTree)
    requires MessagesHold(ms, ts) && MessageHolds(m, t)
    ensures MessagesHold(ms + [m], ts + [t])
  {
  }

  /** `BuildMessage`, which leaves the messages built before untouched. */
  method BuildMessageAfter(ghost ms: seq<DirectMessage>, ghost done: seq<MessageTree>, t: MessageTree)
    returns (m: DirectMessage)
    requires MessagesHold(ms, done)
    ensures fresh(m) && MessageHolds(m, t) && MessagesHold(ms, done)
  {
    m := BuildMessage(t);
    assert forall k :: 0 <= k < |ms| ==> MessageHolds(ms[k], done[k]);
  }

  /** One turn of the building loop: a new message for element `i` of `ts`, after those
      for the elements before it. */
  method AppendMessage(ms: seq<DirectMessage>, ts: seq<MessageTree>, i: nat) returns (m: DirectMessage)
    requires i < |ts| && MessagesHold(ms, ts[..i])
    ensures fresh(m) && MessagesHold(ms + [m], ts[..i + 1])
  {
    assert ts[..i] + [ts[i]] == ts[..i + 1];
    m := BuildMessageAfter(ms, ts[..i], ts[i]);
    MessagesHoldAppend(ms, ts[..i], m, ts[i]);
  }

  /** The building half of the loop of `createDirectMessageList`. */
  method BuildMessages(ts: seq<MessageTree>) returns (ms: seq<DirectMessage>)
    ensures |ms| == |ts| && (forall k :: 0 <= k < |ms| ==> fresh(ms[k])) && MessagesHold(ms, ts)
  {
    ms := [];
    var i := 0;
    while i < |ts|
      invariant 0 <= i <= |ts|
      invariant |ms| == i && forall k :: 0 <= k < i ==> fresh(ms[k])
      invariant MessagesHold(ms, ts[..i])
    {
      var m := AppendMessage(ms, ts, i);
      ms := ms + [m];
      i := i + 1;
    }
    assert ts[..i] == ts;
  }

  /** `createDirectMessageList`: the body must be an array, checked before the headers;
      then the elements are mapped left to right. */
  method CreateDirectMessageList(res: Response, now: int, dates: DateParser, doubles: DoubleParser)
    returns (r: Result<ResponseList<DirectMessage>>)
    ensures !res.body.JArr? ==> r == Failure(JsonError)
    ensures res.body.JArr? && FromHeaders(res, now).Failure? ==> r == Failure(FromHeaders(res, now).error)
    ensures res.body.JArr? && FromHeaders(res, now).Success? ==>
      && (r.Success? <==> MapObjects(res.body.items, MessageMapping(dates, doubles)).Success?)
      && (r.Failure? ==> r.error == MapObjects(res.body.items, MessageMapping(dates, doubles)).error)
    ensures r.Success? ==>
      && r.value.rateLimitStatus == FromHeaders(res, now).value
      && (forall k :: 0 <= k < |r.value.items| ==> fresh(r.value.items[k]))
      && MessagesHold(r.value.items, MapObjects(res.body.items, MessageMapping(dates, doubles)).value)
  {
    var list :- res.AsJSONArray();
    var rateLimit :- FromHeaders(res, now);
    var trees :- MapObjects(list, MessageMapping(dates, doubles));
    var messages := BuildMessages(trees);
    r := Success(ResponseList(messages, rateLimit));
  }

  // ---- user lists ----

  /** The scalar part of a user list, as `createUserList` reads it. */
  datatype ListFields = ListFields(
    id: int,
    name: string,
    fullName: string,
    slug: string,
    description: string,
    subscriberCount: int,
    memberCount: int,
    uri: string,
    mode: string)

  /** The scalar reads of `createUserList`, all through the strict accessors: every one
      of the nine members must be present. */
  function ReadList(json: Json): (r: Result<ListFields>)
    ensures r.Success? <==>
      && OrgJson.GetInt(json, "id").Success?
      && GetString(json, "name").Success? && GetString(json, "full_name").Success?
      && GetString(json, "slug").Success? && GetString(json, "description").Success?
      && OrgJson.GetInt(json, "subscriber_count").Success?
      && OrgJson.GetInt(json, "member_count").Success?
      && GetString(json, "uri").Success? && GetString(json, "mode").Success?
    ensures r.Success? ==> IsInt(r.value.id) && IsInt(r.value.subscriberCount) && IsInt(r.value.memberCount)
    ensures r.Failure? ==> r.error == JsonError
  {
    var id :- OrgJson.GetInt(json, "id");
    var name :- GetString(json, "name");
    var fullName :- GetString(json, "full_name");
    var slug :- GetString(json, "slug");
    var description :- GetString(json, "description");
    var subscriberCount :- OrgJson.GetInt(json, "subscriber_count");
    var memberCount :- OrgJson.GetInt(json, "member_count");
    var uri :- GetString(json, "uri");
    var mode :- GetString(json, "mode");
    Success(ListFields(id, name, fullName, slug, description, subscriberCount, memberCount, uri, mode))
  }

  /** Whatever the order of its members, a list object that sends each field as a JSON
      number or string, the numbers within `int`, is read back as those fields. */
  lemma ReadListOfMembers(json: Json, f: ListFields)
    requires IsInt(f.id) && IsInt(f.subscriberCount) && IsInt(f.memberCount)
    requires Opt(json, "id") == Some(JNum(f.id))
    requires Opt(json, "name") == Some(JStr(f.name)) && Opt(json, "full_name") == Some(JStr(f.fullName))
    requires Opt(json, "slug") == Some(JStr(f.slug)) && Opt(json, "description") == Some(JStr(f.description))
    requires Opt(json, "subscriber_count") == Some(JNum(f.subscriberCount))
    requires Opt(json, "member_count") == Some(JNum(f.memberCount))
    requires Opt(json, "uri") == Some(JStr(f.uri)) && Opt(json, "mode") == Some(JStr(f.mode))
    ensures ReadList(json) == Success(f)
  {
  }

  /** `getString` renders a JSON null as the text "null": a list whose description is
      null is read with the description "null". */
  lemma NullDescriptionReadsAsText(json: Json)
    requires ReadList(json).Success? && Opt(json, "description") == Some(JNull)
    ensures ReadList(json).value.description == "null"
  {
  }

  /** What `createUserList` builds, as a value: the scalars and, unless the `user` member
      is absent or null, the owner. */
  datatype ListTree = ListTree(fields: ListFields, user: Option<UserTree>)

  /** The owner of a list: none for an absent or null `user`, otherwise the member must
      be an object that maps to a user. */
  function ListOwnerOf(json: Json, dates: DateParser, doubles: DoubleParser): (r: Result<Option<UserTree>>)
    ensures IsNull(json, "user") ==> r == Success(None)
    ensures !IsNull(json, "user") ==> (r.Success? <==>
      GetJSONObject(json, "user").Success? && MapUser(GetJSONObject(json, "user").value, dates, doubles).Success?)
    ensures r.Success? && r.value.Some? ==>
      && GetJSONObject(json, "user").Success?
      && MapUser(GetJSONObject(json, "user").value, dates, doubles) == Success(r.value.value)
  {
    if IsNull(json, "user") then Success(None)
    else
      var userJson :- GetJSONObject(json, "user");
      var user :- MapUser(userJson, dates, doubles);
      Success(Some(user))
  }

  /** `createUserList(JSONObject)`, on values. */
  function MapList(json: Json, dates: DateParser, doubles: DoubleParser): (r: Result<ListTree>)
  {
    var fields :- ReadList(json);
    var user :- ListOwnerOf(json, dates, doubles);
    Success(ListTree(fields, user))
  }

  /** A list is mapped exactly when its nine scalars are read and its owner, if any, maps;
      unlike a status's retweet, an owner that is not an object is an error. */
  lemma MapListSucceeds(json: Json, dates: DateParser, doubles: DoubleParser)
    ensures MapList(json, dates, doubles).Success? <==>
      ReadList(json).Success? && ListOwnerOf(json, dates, doubles).Success?
    ensures MapList(json, dates, doubles).Success? ==>
      && MapList(json, dates, doubles).value.fields == ReadList(json).value
      && MapList(json, dates, doubles).value.user == ListOwnerOf(json, dates, doubles).value
  {
  }

  /** An owner member that is present but not an object fails the whole list. */
  lemma NonObjectOwnerFailsList(json: Json, dates: DateParser, doubles: DoubleParser)
    requires Opt(json, "user").Some? && !Opt(json, "user").value.JObj? && !Opt(json, "user").value.JNull?
    ensures MapList(json, dates, doubles).Failure?
  {
  }

  predicate ListScalarsHold(l: UserList, f: ListFields)
    reads l`id, l`name, l`fullName, l`slug, l`description, l`subscriberCount, l`memberCount, l`uri, l`mode
  {
    && l.id == f.id && l.name == Some(f.name) && l.fullName == Some(f.fullName)
    && l.slug == Some(f.slug) && l.description == Some(f.description)
    && l.subscriberCount == f.subscriberCount && l.memberCount == f.memberCount
    && l.uri == Some(f.uri) && l.mode == Some(f.mode)
  }

  /** A list object holds the value `t`: its scalars, and an owner object holding the
      owner exactly when `t` has one. */
  predicate ListHolds(l: UserList, t: ListTree)
    reads l`id, l`name, l`fullName, l`slug, l`description, l`subscriberCount, l`memberCount, l`uri, l`mode
    reads l`user, l.user, if l.user != null then {l.user.profile} else {}
  {
    && ListScalarsHold(l, t.fields)
    && (l.user == null <==> t.user.None?)
    && (l.user != null ==> UserHolds(l.user, t.user.value))
  }

  /** The setter calls of `createUserList` on a new list: the nine scalars, then the
      owner. */
  method NewListWith(f: ListFields, user: User?) returns (l: UserList)
    ensures fresh(l) && ListScalarsHold(l, f) && l.user == user && l.rateLimitStatus == None
  {
    l := new UserList();
    l.SetId(f.id);
    l.SetName(Some(f.name));
    l.SetFullName(Some(f.fullName));
    l.SetSlug(Some(f.slug));
    l.SetDescription(Some(f.description));
    l.SetSubscriberCount(f.subscriberCount);
    l.SetMemberCount(f.memberCount);
    l.SetURI(Some(f.uri));
    l.SetMode(Some(f.mode));
    l.SetUser(user);
  }

  /** The object graph `createUserList` builds for the value `t`. */
  method BuildList(t: ListTree) returns (l: UserList)
    ensures fresh(l) && (l.user != null ==> fresh(l.user))
    ensures ListHolds(l, t) && l.rateLimitStatus == None
  {
    var user: User? := null;
    if t.user.Some? {
      user := BuildUser(t.user.value);
    }
    l := NewListWith(t.fields, user);
  }

  /** `createUserList(JSONObject)`. */
  method CreateUserList(json: Json, dates: DateParser, doubles: DoubleParser) returns (r: Result<UserList>)
    ensures r.Failure? <==> MapList(json, dates, doubles).Failure?
    ensures r.Failure? ==> r.error == MapList(json, dates, doubles).error
    ensures r.Success? ==> fresh(r.value) && ListHolds(r.value, MapList(json, dates, doubles).value)
    ensures r.Success? ==> r.value.rateLimitStatus == None
  {
    var t :- MapList(json, dates, doubles);
    var l := BuildList(t);
    r := Success(l);
  }

  method SetListRateLimit(l: UserList, rateLimit: Option<RateLimitStatus>, ghost t: ListTree)
    requires ListHolds(l, t)
    modifies l`rateLimitStatus
    ensures ListHolds(l, t) && l.rateLimitStatus == rateLimit
  {
    l.SetRateLimitStatus(rateLimit);
  }

  /** `createUserList(Response)`: the headers first, then the body. */
  method CreateUserListOfResponse(res: Response, now: int, dates: DateParser, doubles: DoubleParser)
    returns (r: Result<UserList>)
    ensures FromHeaders(res, now).Failure? ==> r == Failure(FromHeaders(res, now).error)
    ensures FromHeaders(res, now).Success? && !res.body.JObj? ==> r == Failure(JsonError)
    ensures FromHeaders(res, now).Success? && res.body.JObj? ==>
      (r.Success? <==> MapList(res.body, dates, doubles).Success?)
      && (r.Failure? ==> r.error == MapList(res.body, dates, doubles).error)
    ensures r.Success? ==>
      && fresh(r.value) && ListHolds(r.value, MapList(res.body, dates, doubles).value)
      && r.value.rateLimitStatus == FromHeaders(res, now).value
  {
    var rateLimit :- FromHeaders(res, now);
    var json :- res.AsJSONObject();
    var result :- CreateUserList(json, dates, doubles);
    SetListRateLimit(result, rateLimit, MapList(json, dates, doubles).value);
    r := Success(result);
  }

  /** `createUserList(JSONObject)` as the element mapping of a list. */
  function ListMapping(dates: DateParser, doubles: DoubleParser): Json -> Result<ListTree> {
    (json: Json) => MapList(json, dates, doubles)
  }

  /** Element `k` of `ls` holds element `k` of `ts`. */
  predicate ListsHold(ls: seq<UserList>, ts: seq<ListTree>)
    reads set k | 0 <= k < |ls| :: ls[k]
    reads set k | 0 <= k < |ls| && ls[k].user != null :: ls[k].user
    reads set k | 0 <= k < |ls| && ls[k].user != null :: ls[k].user.profile
  {
    |ls| == |ts| && forall k :: 0 <= k < |ls| ==> ListHolds(ls[k], ts[k])
  }

  lemma ListsHoldAppend(ls: seq<UserList>, ts: seq<ListTree>, l: UserList, t: ListTree)
    requires ListsHold(ls, ts) && ListHolds(l, t)
    ensures ListsHold(ls + [l], ts + [t])
  {
  }

  /** One turn of the building loop of `createUserListList`. */
  method AppendList(ls: seq<UserList>, ts: seq<ListTree>, i: nat) returns (l: UserList)
    requires i < |ts| && ListsHold(ls, ts[..i])
    ensures fresh(l) && ListsHold(ls + [l], ts[..i + 1])
  {
    l := BuildList(ts[i]);
    ListsHoldAppend(ls, ts[..i], l, ts[i]);
    assert ts[..i] + [ts[i]] == ts[..i + 1];
  }

  /** The building half of the loop of `createUserListList`. */
  method BuildLists(ts: seq<ListTree>) returns (ls: seq<UserList>)
    ensures |ls| == |ts| && (forall k :: 0 <= k < |ls| ==> fresh(ls[k])) && ListsHold(ls, ts)
  {
    ls := [];
    var i := 0;
    while i < |ts|
      invariant 0 <= i <= |ts|
      invariant |ls| == i && forall k :: 0 <= k < i ==> fresh(ls[k])
      invariant ListsHold(ls, ts[..i])
    {
      var l := AppendList(ls, ts, i);
      ls := ls + [l];
      i := i + 1;
    }
    assert ts[..i] == ts;
  }

  /** `createUserListList`: the body must be an object whose `lists` member is an array;
      then the headers; then the two cursors through the tolerant `getLong` (-1 when
      absent); then the elements. */
  method CreateUserListList(res: Response, now: int, dates: DateParser, doubles: DoubleParser)
    returns (r: Result<PagableResponseList<UserList>>)
    ensures !res.body.JObj? || GetJSONArray(res.body, "lists").Failure? ==> r == Failure(JsonError)
    ensures r.Success? ==>
      && GetJSONArray(res.body, "lists").Success?
      && FromHeaders(res, now) == Success(r.value.rateLimitStatus)
      && ParseUtil.GetLong("previous_cursor", res.body) == Success(r.value.previousCursor)
      && ParseUtil.GetLong("next_cursor", res.body) == Success(r.value.nextCursor)
      && MapObjects(GetJSONArray(res.body, "lists").value, ListMapping(dates, doubles)).Success?
      && (forall k :: 0 <= k < |r.value.items| ==> fresh(r.value.items[k]))
      && ListsHold(r.value.items, MapObjects(GetJSONArray(res.body, "lists").value, ListMapping(dates, doubles)).value)
    ensures
      && res.body.JObj? && GetJSONArray(res.body, "lists").Success?
      && FromHeaders(res, now).Success?
      && ParseUtil.GetLong("previous_cursor", res.body).Success?
      && ParseUtil.GetLong("next_cursor", res.body).Success?
      && MapObjects(GetJSONArray(res.body, "lists").value, ListMapping(dates, doubles)).Success?
      ==> r.Success?
  {
    var json :- res.AsJSONObject();
    var list :- GetJSONArray(json, "lists");
    var rateLimit :- FromHeaders(res, now);
    var previousCursor :- ParseUtil.GetLong("previous_cursor", json);
    var nextCursor :- ParseUtil.GetLong("next_cursor", json);
    var trees :- MapObjects(list, ListMapping(dates, doubles));
    var lists := BuildLists(trees);
    r := Success(PagableResponseList(lists, rateLimit, previousCursor, nextCursor));
  }

  // ---- relationships ----

  /** What `createRelationship` reads: both ids and screen names, and the four flags of
      the source side. */
  datatype RelationshipFields = RelationshipFields(
    sourceUserId: int,
    targetUserId: int,
    sourceUserScreenName: Option<string>,
    targetUserScreenName: Option<string>,
    sourceBlockingTarget: bool,
    sourceFollowingTarget: bool,
    sourceFollowedByTarget: bool,
    sourceNotificationsEnabled: bool)

  /** The reads of `createRelationship` from the two sides, once both are found. */
  function ReadSides(sourceJson: Json, targetJson: Json): (r: Result<RelationshipFields>)
    ensures r.Success? <==> ParseUtil.GetInt("id", sourceJson).Success? && ParseUtil.GetInt("id", targetJson).Success?
    ensures r.Failure? ==> r.error == NumberFormat
    ensures r.Success? ==> IsInt(r.value.sourceUserId) && IsInt(r.value.targetUserId)
    ensures r.Success? ==>
      && r.value.sourceUserId == ParseUtil.GetInt("id", sourceJson).value
      && r.value.targetUserId == ParseUtil.GetInt("id", targetJson).value
      && r.value.sourceUserScreenName == GetText("screen_name", sourceJson)
      && r.value.targetUserScreenName == GetText("screen_name", targetJson)
      && r.value.sourceBlockingTarget == ParseUtil.GetBoolean("blocking", sourceJson)
      && r.value.sourceFollowingTarget == ParseUtil.GetBoolean("following", sourceJson)
      && r.value.sourceFollowedByTarget == ParseUtil.GetBoolean("followed_by", sourceJson)
      && r.value.sourceNotificationsEnabled == ParseUtil.GetBoolean("notifications_enabled", sourceJson)
  {
    var sourceUserId :- ParseUtil.GetInt("id", sourceJson);
    var targetUserId :- ParseUtil.GetInt("id", targetJson);
    Success(RelationshipFields(
      sourceUserId, targetUserId,
      GetText("screen_name", sourceJson), GetText("screen_name", targetJson),
      ParseUtil.GetBoolean("blocking", sourceJson), ParseUtil.GetBoolean("following", sourceJson),
      ParseUtil.GetBoolean("followed_by", sourceJson), ParseUtil.GetBoolean("notifications_enabled", sourceJson)))
  }

  /** `createRelationship(JSONObject)`, on values: the `relationship` object, its
      `source` and its `target` objects, then the reads. */
  function MapRelationship(json: Json): (r: Result<RelationshipFields>)
  {
    var relationship :- GetJSONObject(json, "relationship");
    var sourceJson :- GetJSONObject(relationship, "source");
    var targetJson :- GetJSONObject(relationship, "target");
    ReadSides(sourceJson, targetJson)
  }

  /** The body Twitter sends for a relationship: both sides, each with its id, its
      screen name and its flags as seen from that side. */
  function RelationshipJson(source: Json, target: Json): (r: Json)
    ensures r.JObj?
  {
    JObj([("relationship", JObj([("source", source), ("target", target)]))])
  }

  /** The flags come from the source side alone: whatever the target side says about
      following is not read, so a target that contradicts the source changes nothing. */
  lemma TargetFlagsIgnored(source: Json, target: Json, target': Json)
    requires source.JObj? && target.JObj? && target'.JObj?
    requires Opt(target, "id") == Opt(target', "id") && Opt(target, "screen_name") == Opt(target', "screen_name")
    ensures MapRelationship(RelationshipJson(source, target)) == MapRelationship(RelationshipJson(source, target'))
  {
    RelationshipJsonSides(source, target);
    RelationshipJsonSides(source, target');
    SidesOfSameTarget(source, target, target');
  }

  /** Reading the two sides depends on the target only through its id and screen name. */
  lemma SidesOfSameTarget(source: Json, target: Json, target': Json)
    requires Opt(target, "id") == Opt(target', "id") && Opt(target, "screen_name") == Opt(target', "screen_name")
    ensures ReadSides(source, target) == ReadSides(source, target')
  {
    assert ParseUtil.GetInt("id", target) == ParseUtil.GetInt("id", target');
    assert GetText("screen_name", target) == GetText("screen_name", target');
  }

  /** The two sides of a sent relationship are found where they were put. */
  lemma RelationshipJsonSides(source: Json, target: Json)
    requires source.JObj? && target.JObj?
    ensures MapRelationship(RelationshipJson(source, target)) == ReadSides(source, target)
  {
    var inner := JObj([("source", source), ("target", target)]);
    assert GetJSONObject(RelationshipJson(source, target), "relationship") == Success(inner);
    assert GetJSONObject(inner, "source") == Success(source);
    FindAt(inner.members, 1, "target");
  }

  /** A side without an id reads as the id -1 rather than failing; a side that is
      missing altogether fails the mapping. */
  lemma MissingSideFailsRelationship(json: Json)
    requires GetJSONObject(json, "relationship").Success?
    requires IsNull(GetJSONObject(json, "relationship").value, "source")
          || IsNull(GetJSONObject(json, "relationship").value, "target")
    ensures MapRelationship(json) == Failure(JsonError)
  {
  }

  predicate RelationshipHolds(r: Relationship, f: RelationshipFields)
    reads r`sourceUserId, r`targetUserId, r`sourceUserScreenName, r`targetUserScreenName
    reads r`sourceBlockingTarget, r`sourceFollowingTarget, r`sourceFollowedByTarget, r`sourceNotificationsEnabled
  {
    && r.sourceUserId == f.sourceUserId && r.targetUserId == f.targetUserId
    && r.sourceUserScreenName == f.sourceUserScreenName && r.targetUserScreenName == f.targetUserScreenName
    && r.sourceBlockingTarget == f.sourceBlockingTarget && r.sourceFollowingTarget == f.sourceFollowingTarget
    && r.sourceFollowedByTarget == f.sourceFollowedByTarget
    && r.sourceNotificationsEnabled == f.sourceNotificationsEnabled
  }

  /** The eight setter calls of `createRelationship` on a new relationship. */
  method NewRelationshipWith(f: RelationshipFields) returns (r: Relationship)
    ensures fresh(r) && RelationshipHolds(r, f) && r.rateLimitStatus == None
  {
    r := new Relationship();
    r.SetSourceUserId(f.sourceUserId);
    r.SetTargetUserId(f.targetUserId);
    r.SetSourceUserScreenName(f.sourceUserScreenName);
    r.SetTargetUserScreenName(f.targetUserScreenName);
    r.SetSourceBlockingTarget(f.sourceBlockingTarget);
    r.SetSourceFollowingTarget(f.sourceFollowingTarget);
    r.SetSourceFollowedByTarget(f.sourceFollowedByTarget);
    r.SetSourceNotificationsEnabled(f.sourceNotificationsEnabled);
  }

  /** `createRelationship(JSONObject)`. The target-side answers of the result are the
      source side's `followed_by` and `following` flags. */
  method CreateRelationship(json: Json) returns (r: Result<Relationship>)
    ensures r.Failure? <==> MapRelationship(json).Failure?
    ensures r.Failure? ==> r.error == MapRelationship(json).error
    ensures r.Success? ==> fresh(r.value) && RelationshipHolds(r.value, MapRelationship(json).value)
    ensures r.Success? ==> r.value.rateLimitStatus == None
    ensures r.Success? ==>
      var sourceJson := GetJSONObject(GetJSONObject(json, "relationship").value, "source").value;
      && r.value.IsTargetFollowingSource() == ParseUtil.GetBoolean("followed_by", sourceJson)
      && r.value.IsTargetFollowedBySource() == ParseUtil.GetBoolean("following", sourceJson)
  {
    var f :- MapRelationship(json);
    var result := NewRelationshipWith(f);
    r := Success(result);
  }

  /** `createRelationship(Response)`: the headers first, then the body. */
  method CreateRelationshipOfResponse(res: Response, now: int) returns (r: Result<Relationship>)
    ensures FromHeaders(res, now).Failure? ==> r == Failure(FromHeaders(res, now).error)
    ensures FromHeaders(res, now).Success? && !res.body.JObj? ==> r == Failure(JsonError)
    ensures FromHeaders(res, now).Success? && res.body.JObj? ==>
      (r.Success? <==> MapRelationship(res.body).Success?)
      && (r.Failure? ==> r.error == MapRelationship(res.body).error)
    ensures r.Success? ==>
      && fresh(r.value) && RelationshipHolds(r.value, MapRelationship(res.body).value)
      && r.value.rateLimitStatus == FromHeaders(res, now).value
  {
    var rateLimit :- FromHeaders(res, now);
    var json :- res.AsJSONObject();
    var result :- CreateRelationship(json);
    result.SetRateLimitStatus(rateLimit);
    r := Success(result);
  }

  // ---- streaming notices ----

  /** `createStatusDeletionNotice`: the `status` object inside the `delete` object, its
      `id` through the tolerant `getLong` and its `user_id` through the tolerant
      `getInt`. */
  function DeletionNoticeOf(json: Json): (r: Result<StatusDeletionNotice>)
    ensures r.Success? ==> IsLong(r.value.statusId) && IsInt(r.value.userId)
  {
    var delete :- GetJSONObject(json, "delete");
    var status :- GetJSONObject(delete, "status");
    var statusId :- ParseUtil.GetLong("id", status);
    var userId :- ParseUtil.GetInt("user_id", status);
    Success(StatusDeletionNotice(statusId, userId))
  }

  /** The notice the stream sends when a status is deleted. */
  function DeletionNoticeJson(n: StatusDeletionNotice): (r: Json)
  {
    JObj([("delete", JObj([("status", JObj([("id", JNum(n.statusId)), ("user_id", JNum(n.userId))]))]))])
  }

  /** Every notice whose ids fit `long` and `int` is read back from what the stream sends. */
  lemma DeletionNoticeOfJson(n: StatusDeletionNotice)
    requires IsLong(n.statusId) && IsInt(n.userId)
    ensures DeletionNoticeOf(DeletionNoticeJson(n)) == Success(n)
  {
    var status := JObj([("id", JNum(n.statusId)), ("user_id", JNum(n.userId))]);
    var delete := JObj([("status", status)]);
    assert GetJSONObject(DeletionNoticeJson(n), "delete") == Success(delete);
    assert GetJSONObject(delete, "status") == Success(status);
    FindAt(status.members, 1, "user_id");
  }

  /** A deletion notice without ids reads as the ids -1; one without the `status` object
      is an error. */
  lemma DeletionNoticeWithoutIds(json: Json)
    requires GetJSONObject(json, "delete").Success?
    ensures var delete := GetJSONObject(json, "delete").value;
      && (IsNull(delete, "status") ==> DeletionNoticeOf(json) == Failure(JsonError))
      && (GetJSONObject(delete, "status").Success?
          && IsNull(GetJSONObject(delete, "status").value, "id")
          && IsNull(GetJSONObject(delete, "status").value, "user_id")
          ==> DeletionNoticeOf(json) == Success(StatusDeletionNotice(-1, -1)))
  {
  }

  /** `createTrackLimitationNotice`: the `track` count inside the `limit` object,
      through the tolerant `getInt`. */
  function TrackLimitationOf(json: Json): (r: Result<int>)
    ensures r.Success? ==> IsInt(r.value)
    ensures r.Success? ==> GetJSONObject(json, "limit").Success?
    ensures GetJSONObject(json, "limit").Success? && IsNull(GetJSONObject(json, "limit").value, "track") ==> r == Success(-1)
  {
    var limit :- GetJSONObject(json, "limit");
    ParseUtil.GetInt("track", limit)
  }

  /** Every `int` count is read back from the notice the stream sends for it, as a number
      or as its decimal text. */
  lemma TrackLimitationOfJson(track: int)
    requires IsInt(track)
    ensures TrackLimitationOf(JObj([("limit", JObj([("track", JNum(track))]))])) == Success(track)
    ensures TrackLimitationOf(JObj([("limit", JObj([("track", JStr(Decimal(track)))]))])) == Success(track)
  {
    var asNumber := JObj([("track", JNum(track))]);
    var asText := JObj([("track", JStr(Decimal(track)))]);
    assert GetJSONObject(JObj([("limit", asNumber)]), "limit") == Success(asNumber);
    assert GetJSONObject(JObj([("limit", asText)]), "limit") == Success(asText);
    assert Opt(asText, "track") == Some(JStr(Decimal(track)));
    ParseDecimalOfDecimal(track, INT_MIN, INT_MAX);
  }
}
