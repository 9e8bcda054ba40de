/** `createRateLimitStatus`: the API quota, read either from a rate-limit status body or
    from the `X-RateLimit-*` headers of any response. */
module RateLimits {
  import opened Wrappers
  import opened JavaNumbers
  import opened OrgJson
  import opened ParseUtil
  import opened ValueTypes

  const LIMIT_HEADER: string := "X-RateLimit-Limit"
  const REMAINING_HEADER: string := "X-RateLimit-Remaining"
  const RESET_HEADER: string := "X-RateLimit-Reset"

  /** `createRateLimitStatus(JSONObject)`: the three counters through the tolerant
      extractors (-1 when absent) and the reset instant as a date (null when absent). */
  function FromJson(json: Json, dates: DateParser): (r: Result<RateLimitStatus>)
    ensures r.Success? <==>
      && ParseUtil.GetInt("hourly_limit", json).Success?
      && ParseUtil.GetInt("remaining_hits", json).Success?
      && ParseUtil.GetInt("reset_time_in_seconds", json).Success?
      && GetDate("reset_time", json, ResetDate, dates).Success?
    ensures r.Success? && IsNull(json, "hourly_limit") ==> r.value.hourlyLimit == -1
    ensures r.Success? && IsNull(json, "remaining_hits") ==> r.value.remainingHits == -1
    ensures r.Success? && IsNull(json, "reset_time_in_seconds") ==> r.value.resetTimeInSeconds == -1
    ensures r.Success? ==> (r.value.resetTime.None? <==> IsNull(json, "reset_time"))
  {
    var hourlyLimit :- ParseUtil.GetInt("hourly_limit", json);
    var remainingHits :- ParseUtil.GetInt("remaining_hits", json);
    var resetTimeInSeconds :- ParseUtil.GetInt("reset_time_in_seconds", json);
    var resetTime :- GetDate("reset_time", json, ResetDate, dates);
    Success(RateLimitStatus(hourlyLimit, remainingHits, resetTimeInSeconds, resetTime))
  }

  /** The body the server sends for `s`, its reset instant written by `render`. */
  function StatusBody(s: RateLimitStatus, render: Date -> string): Json {
    JObj([("hourly_limit", JNum(s.hourlyLimit)),
          ("remaining_hits", JNum(s.remainingHits)),
          ("reset_time_in_seconds", JNum(s.resetTimeInSeconds)),
          ("reset_time", if s.resetTime.None? then JNull else JStr(render(s.resetTime.value)))])
  }

  /** The two counts of a written body are found under their keys. */
  lemma StatusBodyCounts(s: RateLimitStatus, render: Date -> string)
    ensures var body := StatusBody(s, render);
      && Opt(body, "hourly_limit") == Some(JNum(s.hourlyLimit))
      && Opt(body, "remaining_hits") == Some(JNum(s.remainingHits))
  {
    var ms := StatusBody(s, render).members;
    FindAt(ms, 0, "hourly_limit");
    assert |ms[0].0| != |"remaining_hits"|;
    FindAt(ms, 1, "remaining_hits");
  }

  /** The two reset members of a written body are found under their keys. */
  lemma StatusBodyResets(s: RateLimitStatus, render: Date -> string)
    ensures var body := StatusBody(s, render);
      && Opt(body, "reset_time_in_seconds") == Some(JNum(s.resetTimeInSeconds))
      && Opt(body, "reset_time") == Some(if s.resetTime.None? then JNull else JStr(render(s.resetTime.value)))
  {
    var ms := StatusBody(s, render).members;
    assert |ms[0].0| != |"reset_time_in_seconds"| && |ms[1].0| != |"reset_time_in_seconds"|;
    FindAt(ms, 2, "reset_time_in_seconds");
    assert |ms[0].0| != |"reset_time"| && |ms[1].0| != |"reset_time"| && |ms[2].0| != |"reset_time"|;
    FindAt(ms, 3, "reset_time");
  }

  /** Reading a body back gives the status it was written from, provided the date
      pattern reads back what `render` wrote. */
  lemma FromJsonOfStatusBody(s: RateLimitStatus, render: Date -> string, dates: DateParser)
    requires IsInt(s.hourlyLimit) && IsInt(s.remainingHits) && IsInt(s.resetTimeInSeconds)
    requires s.resetTime.Some? ==> dates(render(s.resetTime.value), ResetDate) == s.resetTime
    ensures FromJson(StatusBody(s, render), dates) == Success(s)
  {
    StatusBodyCounts(s, render);
    StatusBodyResets(s, render);
  }

  /** An empty body reads as the all-unknown status. */
  lemma FromJsonOfEmptyBody(dates: DateParser)
    ensures FromJson(JObj([]), dates) == Success(RateLimitStatus(-1, -1, -1, None))
  {
  }

  /** `(int)(longReset - now) / 1000`: the millisecond difference is narrowed to `int`
      BEFORE it is divided, then divided with truncation toward zero. */
  function ResetSeconds(longReset: int, now: int): (s: int)
    ensures IsInt(longReset - now) ==> s == JavaDiv(longReset - now, 1000)
  {
    JavaDiv(ToInt32(ToInt64(longReset - now)), 1000)
  }

  /** A reset one minute away reads as 60 seconds; 1.5 seconds in the past as -1, not -2. */
  lemma ResetSecondsExamples(now: int)
    ensures ResetSeconds(now + 60000, now) == 60
    ensures ResetSeconds(now + 60999, now) == 60
    ensures ResetSeconds(now - 1500, now) == -1
  {
  }

  /** Because of the early narrowing, a reset more than 2^31 ms (about 24.8 days) away
      wraps around to a negative number of seconds. */
  lemma ResetSecondsWrapsBeyondIntRange(now: int)
    ensures ResetSeconds(now + 0x8000_0000, now) == -2147483
  {
    assert ToInt64(0x8000_0000) == 0x8000_0000;
    assert ToInt32(0x8000_0000) == INT_MIN;
  }

  /** `createRateLimitStatus(Response)`: the headers are looked up in the order limit,
      remaining, reset, each parsed as soon as it is found. Null as soon as one is
      missing; a NumberFormatException as soon as one does not parse, so the first
      present header that fails, in that order, is the one reported. The reset header holds epoch seconds; `now` is
      the clock in milliseconds. */
  function FromHeaders(res: Response, now: int): (r: Result<Option<RateLimitStatus>>)
    ensures LIMIT_HEADER !in res.headers ==> r == Success(None)
    ensures (LIMIT_HEADER in res.headers && ParseInt(res.headers[LIMIT_HEADER]).Some?
             && REMAINING_HEADER !in res.headers) ==> r == Success(None)
    ensures (LIMIT_HEADER in res.headers && ParseInt(res.headers[LIMIT_HEADER]).Some?
             && REMAINING_HEADER in res.headers && ParseInt(res.headers[REMAINING_HEADER]).Some?
             && RESET_HEADER !in res.headers) ==> r == Success(None)
    ensures r.Failure? <==>
      && LIMIT_HEADER in res.headers
      && (|| ParseInt(res.headers[LIMIT_HEADER]).None?
          || (&& REMAINING_HEADER in res.headers
              && (|| ParseInt(res.headers[REMAINING_HEADER]).None?
                  || (RESET_HEADER in res.headers && ParseLong(res.headers[RESET_HEADER]).None?))))
    ensures r.Failure? ==> r.error == NumberFormat
    ensures r.Success? && r.value.Some? ==>
      && LIMIT_HEADER in res.headers && REMAINING_HEADER in res.headers && RESET_HEADER in res.headers
      && ParseInt(res.headers[LIMIT_HEADER]) == Some(r.value.value.hourlyLimit)
      && ParseInt(res.headers[REMAINING_HEADER]) == Some(r.value.value.remainingHits)
      && ParseLong(res.headers[RESET_HEADER]).Some?
      && r.value.value.resetTime == Some(ToInt64(ParseLong(res.headers[RESET_HEADER]).value * 1000))
      && r.value.value.resetTimeInSeconds == ResetSeconds(r.value.value.resetTime.value, now)
    ensures (LIMIT_HEADER in res.headers && REMAINING_HEADER in res.headers && RESET_HEADER in res.headers
             && ParseInt(res.headers[LIMIT_HEADER]).Some? && ParseInt(res.headers[REMAINING_HEADER]).Some?
             && ParseLong(res.headers[RESET_HEADER]).Some?) <==> r.Success? && r.value.Some?
  {
    if LIMIT_HEADER !in res.headers then Success(None)
    else
      match ParseInt(res.headers[LIMIT_HEADER])
      case None => Failure(NumberFormat)
      case Some(hourlyLimit) =>
        if REMAINING_HEADER !in res.headers then Success(None)
        else
          match ParseInt(res.headers[REMAINING_HEADER])
          case None => Failure(NumberFormat)
          case Some(remainingHits) =>
            if RESET_HEADER !in res.headers then Success(None)
            else
              match ParseLong(res.headers[RESET_HEADER])
              case None => Failure(NumberFormat)
              case Some(reset) =>
                var longReset := ToInt64(reset * 1000);
                Success(Some(RateLimitStatus(hourlyLimit, remainingHits, ResetSeconds(longReset, now), Some(longReset))))
  }

  /** A missing header yields null only when the headers before it parsed: a malformed
      limit header is an error even if the reset header is absent. */
  lemma MissingResetAfterBadLimit(res: Response, now: int)
    requires LIMIT_HEADER in res.headers && ParseInt(res.headers[LIMIT_HEADER]).None?
    requires RESET_HEADER !in res.headers
    ensures FromHeaders(res, now) == Failure(NumberFormat)
  {
  }

  /** Headers written by the server for a quota are read back: the limit and remaining
      counts as sent, the reset instant as seconds times 1000. */
  lemma FromHeadersOfQuota(body: Json, limit: int, remaining: int, reset: int, now: int)
    requires IsInt(limit) && IsInt(remaining) && IsLong(reset * 1000)
    ensures
      var res := Response(body, map[LIMIT_HEADER := Decimal(limit),
                                    REMAINING_HEADER := Decimal(remaining),
                                    RESET_HEADER := Decimal(reset)]);
      FromHeaders(res, now) ==
        Success(Some(RateLimitStatus(limit, remaining, ResetSeconds(reset * 1000, now), Some(reset * 1000))))
  {
    ParseDecimalOfDecimal(limit, INT_MIN, INT_MAX);
    ParseDecimalOfDecimal(remaining, INT_MIN, INT_MAX);
    ParseDecimalOfDecimal(reset, LONG_MIN, LONG_MAX);
  }
}
