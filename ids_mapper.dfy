/** `createFriendsIDs` and `createBlockIDs`: a page of account ids. Each element of the
    id array is read as text and parsed by `Integer.parseInt`; an element that is not a
    decimal `int` is a malformed response. */
module IdsMapper {
  import opened Wrappers
  import opened JavaNumbers
  import opened OrgJson
  import opened ParseUtil
  import opened ValueTypes
  import opened RateLimits
  import opened IdPages

  /** `Integer.parseInt(idList.getString(i))` for one element. An element whose text
      is not modelled (an object, or an array holding strings or compound values) has a
      text that starts with '{' or '[', which `parseInt` rejects as it rejects every
      other non-numeral. */
  function IdOf(v: Json): (r: Result<int>)
    ensures r.Success? ==> IsInt(r.value)
    ensures r.Failure? ==> r.error == MalformedResponse
  {
    match Render(v)
    case Some(text) =>
      (match ParseInt(text)
       case Some(n) => Success(n)
       case None => Failure(MalformedResponse))
    case None => Failure(MalformedResponse)
  }

  /** An id sent as a number is read exactly when it is an `int`; one sent as text
      exactly when `parseInt` accepts the text. */
  lemma IdOfCases(v: Json)
    ensures v.JNum? ==> (IdOf(v).Success? <==> IsInt(v.n)) && (IdOf(v).Success? ==> IdOf(v).value == v.n)
    ensures v.JStr? ==> IdOf(v) == (match ParseInt(v.s) case Some(n) => Success(n) case None => Failure(MalformedResponse))
  {
    if v.JNum? && IsInt(v.n) {
      ParseDecimalOfDecimal(v.n, INT_MIN, INT_MAX);
    }
  }

  /** The id loop on values: element by element, the first one that is not an `int`
      ending it. */
  function ParseIds(items: seq<Json>): (r: Result<seq<int>>)
    ensures r.Success? ==> |r.value| == |items| && forall k :: 0 <= k < |r.value| ==> IsInt(r.value[k])
    ensures r.Failure? ==> r.error == MalformedResponse
  {
    if items == [] then Success([])
    else
      var init :- ParseIds(items[..|items| - 1]);
      var id :- IdOf(items[|items| - 1]);
      Success(init + [id])
  }

  /** The page is read exactly when every element is an `int`. */
  lemma {:induction false} ParseIdsSucceedsIff(items: seq<Json>)
    ensures ParseIds(items).Success? <==> forall k :: 0 <= k < |items| ==> IdOf(items[k]).Success?
  {
    if items != [] {
      var init := items[..|items| - 1];
      var last := items[|items| - 1];
      ParseIdsSucceedsIff(init);
      assert forall k :: 0 <= k < |init| ==> init[k] == items[k];
      if ParseIds(init).Success? {
        ParseIdsLast(items, ParseIds(init).value);
        assert ParseIds(items).Success? <==> IdOf(last).Success?;
      } else {
        assert ParseIds(items) == Failure(ParseIds(init).error);
      }
    }
  }

  /** On a read page, id `k` is the value of element `k`: order and length are kept. */
  lemma {:induction false} ParseIdsValues(items: seq<Json>)
    requires ParseIds(items).Success?
    ensures forall k :: 0 <= k < |items| ==> IdOf(items[k]) == Success(ParseIds(items).value[k])
  {
    if items != [] {
      var init := items[..|items| - 1];
      var last := items[|items| - 1];
      var done := ParseIds(init).value;
      ParseIdsValues(init);
      ParseIdsLast(items, done);
      assert ParseIds(items).value == done + [IdOf(last).value];
      assert forall k :: 0 <= k < |init| ==> init[k] == items[k];
    }
  }

  /** The page is read exactly when every element is an `int`, and then id `k` is the
      value of element `k`. */
  lemma ParseIdsSucceeds(items: seq<Json>)
    ensures ParseIds(items).Success? <==> forall k :: 0 <= k < |items| ==> IdOf(items[k]).Success?
    ensures ParseIds(items).Success? ==> forall k :: 0 <= k < |items| ==> IdOf(items[k]) == Success(ParseIds(items).value[k])
  {
    ParseIdsSucceedsIff(items);
    if ParseIds(items).Success? {
      ParseIdsValues(items);
    }
  }

  /** The JSON array the ids are sent as. */
  function IdsJson(ids: seq<int>): (r: seq<Json>)
    ensures |r| == |ids| && forall k :: 0 <= k < |ids| ==> r[k] == JNum(ids[k])
  {
    if ids == [] then [] else IdsJson(ids[..|ids| - 1]) + [JNum(ids[|ids| - 1])]
  }

  /** The last element of a page is read after the ones before it. */
  lemma ParseIdsLast(items: seq<Json>, init: seq<int>)
    requires items != [] && ParseIds(items[..|items| - 1]) == Success(init)
    ensures ParseIds(items) == (var id :- IdOf(items[|items| - 1]); Success(init + [id]))
  {
  }

  /** Every page of `int` ids is read back from the array it is sent as. */
  lemma {:induction false} ParseIdsOfIdsJson(ids: seq<int>)
    requires forall k :: 0 <= k < |ids| ==> IsInt(ids[k])
    ensures ParseIds(IdsJson(ids)) == Success(ids)
  {
    if ids != [] {
      var init := ids[..|ids| - 1];
      var last := ids[|ids| - 1];
      assert forall k :: 0 <= k < |init| ==> init[k] == ids[k];
      ParseIdsOfIdsJson(init);
      assert IdsJson(ids)[..|ids| - 1] == IdsJson(init);
      ParseIdsLast(IdsJson(ids), init);
      assert IdsJson(ids)[|ids| - 1] == JNum(last);
      IdOfCases(JNum(last));
      assert ids == init + [last];
    }
  }

  lemma ParseIdsStep(items: seq<Json>, i: nat, done: seq<int>)
    requires i < |items| && ParseIds(items[..i]) == Success(done)
    ensures ParseIds(items[..i + 1]) == (var id :- IdOf(items[i]); Success(done + [id]))
  {
    assert items[..i + 1][..i] == items[..i];
  }

  /** A failure at element `i` of a successful prefix is the failure of the whole page. */
  lemma {:induction false} ParseIdsStopsAt(items: seq<Json>, i: nat, e: Error)
    requires i < |items| && ParseIds(items[..i]).Success?
    requires ParseIds(items[..i + 1]) == Failure(e)
    ensures ParseIds(items) == Failure(e)
    decreases |items| - i
  {
    if i + 1 == |items| {
      assert items[..i + 1] == items;
    } else {
      var longer := items[..|items| - 1];
      assert longer[..i] == items[..i] && longer[..i + 1] == items[..i + 1];
      ParseIdsStopsAt(longer, i, e);
    }
  }

  /** The loop of both mappers: a new `int[]` of the array's length, filled in order. */
  method FillIds(items: seq<Json>) returns (r: Result<array<int>>)
    ensures r.Failure? ==> ParseIds(items) == Failure(r.error)
    ensures r.Success? ==> fresh(r.value) && ParseIds(items) == Success(r.value[..])
  {
    var ids := new int[|items|];
    var i := 0;
    while i < |items|
      invariant 0 <= i <= |items|
      invariant ParseIds(items[..i]) == Success(ids[..i])
    {
      ParseIdsStep(items, i, ids[..i]);
      var id := IdOf(items[i]);
      if id.Failure? {
        ParseIdsStopsAt(items, i, id.error);
        return Failure(id.error);
      }
      assert ids[..i] + [id.value] == ids[..i + 1][i := id.value];
      ids[i] := id.value;
      i := i + 1;
    }
    assert items[..i] == items && ids[..i] == ids[..];
    r := Success(ids);
  }

  /** What a page of ids holds, as a value. */
  datatype IdPage = IdPage(ids: seq<int>, rateLimitStatus: Option<RateLimitStatus>, previousCursor: int, nextCursor: int)

  /** `createFriendsIDs`, on values: the rate-limit headers first, then the body object,
      its `ids` array, and the two cursors through the tolerant `getLong`. */
  function FriendsIdsOf(res: Response, now: int): (r: Result<IdPage>)
  {
    var rateLimit :- FromHeaders(res, now);
    var json :- res.AsJSONObject();
    var items :- GetJSONArray(json, "ids");
    var ids :- ParseIds(items);
    var previousCursor :- ParseUtil.GetLong("previous_cursor", json);
    var nextCursor :- ParseUtil.GetLong("next_cursor", json);
    Success(IdPage(ids, rateLimit, previousCursor, nextCursor))
  }

  /** `createBlockIDs`, on values: the headers, then the body, which is the id array
      itself; the cursors keep the -1 of a new `IDs`. */
  function BlockIdsOf(res: Response, now: int): (r: Result<IdPage>)
  {
    var rateLimit :- FromHeaders(res, now);
    var items :- res.AsJSONArray();
    var ids :- ParseIds(items);
    Success(IdPage(ids, rateLimit, -1, -1))
  }

  /** The friends page carries the body's cursors, so a `next_cursor` of 0, the last
      page, is a page without a next one; absent cursors read as -1. */
  lemma FriendsIdsCursors(res: Response, now: int)
    requires FriendsIdsOf(res, now).Success?
    ensures var page := FriendsIdsOf(res, now).value;
      && (IsNull(res.body, "next_cursor") ==> page.nextCursor == -1)
      && (Opt(res.body, "next_cursor") == Some(JNum(0)) ==> page.nextCursor == 0)
      && (IsNull(res.body, "previous_cursor") ==> page.previousCursor == -1)
      && (Opt(res.body, "previous_cursor") == Some(JNum(0)) ==> page.previousCursor == 0)
  {
  }

  /** A block page reads its ids from the body array, element by element, and never has
      cursors of its own. */
  lemma BlockIdsShape(res: Response, now: int)
    requires BlockIdsOf(res, now).Success?
    ensures var page := BlockIdsOf(res, now).value;
      && res.body.JArr? && |page.ids| == |res.body.items|
      && (forall k :: 0 <= k < |page.ids| ==> IdOf(res.body.items[k]) == Success(page.ids[k]))
      && page.previousCursor == -1 && page.nextCursor == -1
  {
    ParseIdsSucceeds(res.body.items);
  }

  /** A non-numeral element makes the whole page a malformed response, once the headers
      are well formed. */
  lemma NonNumeralIdRejectsBlockPage(res: Response, now: int, k: nat)
    requires FromHeaders(res, now).Success? && res.body.JArr?
    requires k < |res.body.items| && res.body.items[k].JStr? && ParseInt(res.body.items[k].s).None?
    ensures BlockIdsOf(res, now) == Failure(MalformedResponse)
  {
    ParseIdsSucceeds(res.body.items);
  }

  /** A new page, holding `page`'s ids in a new array. */
  predicate PageHolds(p: IDs, page: IdPage)
    reads p, p.ids
  {
    && p.ids != null && p.ids[..] == page.ids
    && p.rateLimitStatus == page.rateLimitStatus
    && p.previousCursor == page.previousCursor && p.nextCursor == page.nextCursor
  }

  /** `createFriendsIDs(Response)`: a new `IDs`, filled by setter calls. */
  method CreateFriendsIDs(res: Response, now: int) returns (r: Result<IDs>)
    ensures r.Failure? <==> FriendsIdsOf(res, now).Failure?
    ensures r.Failure? ==> r.error == FriendsIdsOf(res, now).error
    ensures r.Success? ==> fresh(r.value) && fresh(r.value.ids) && PageHolds(r.value, FriendsIdsOf(res, now).value)
  {
    var page := new IDs();
    var rateLimit :- FromHeaders(res, now);
    page.SetRateLimitStatus(rateLimit);
    var json :- res.AsJSONObject();
    var items :- GetJSONArray(json, "ids");
    var ids :- FillIds(items);
    page.SetIDs(ids);
    var previousCursor :- ParseUtil.GetLong("previous_cursor", json);
    page.SetPreviousCursor(previousCursor);
    var nextCursor :- ParseUtil.GetLong("next_cursor", json);
    page.SetNextCursor(nextCursor);
    r := Success(page);
  }

  /** `createBlockIDs(Response)`: the cursors are never set, so a block page always
      claims neighbouring pages on both sides. */
  method CreateBlockIDs(res: Response, now: int) returns (r: Result<IDs>)
    ensures r.Failure? <==> BlockIdsOf(res, now).Failure?
    ensures r.Failure? ==> r.error == BlockIdsOf(res, now).error
    ensures r.Success? ==> fresh(r.value) && fresh(r.value.ids) && PageHolds(r.value, BlockIdsOf(res, now).value)
    ensures r.Success? ==> r.value.HasNext() && r.value.HasPrevious()
  {
    var page := new IDs();
    var rateLimit :- FromHeaders(res, now);
    page.SetRateLimitStatus(rateLimit);
    var items :- res.AsJSONArray();
    var ids :- FillIds(items);
    page.SetIDs(ids);
    r := Success(page);
  }
}
