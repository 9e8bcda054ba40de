/** The null-tolerant field extractors the mappers share (`ParseUtil`). Their source is
    not part of this model; they are given the semantics the mappers rely on: an absent
    or JSON-null numeric member reads as the sentinel -1, an absent boolean as false, an
    absent text or date as null, and present but malformed content is an error. */
module ParseUtil {
  import opened Wrappers
  import opened JavaNumbers
  import opened OrgJson

  /** An instant, as `java.util.Date` holds it: milliseconds since the epoch. */
  type Date = int

  /** The `SimpleDateFormat` patterns the mappers pass, one constructor per pattern. */
  datatype DateFormat =
    | StatusDate      // "EEE MMM dd HH:mm:ss z yyyy": created_at of users, statuses, saved searches
    | SearchDate      // "EEE, dd MMM yyyy HH:mm:ss z": created_at of search results
    | ResetDate       // "EEE MMM d HH:mm:ss Z yyyy": reset_time of the rate-limit body
    | TrendsAsOfDate  // "EEE, d MMM yyyy HH:mm:ss z": a non-numeric trends as_of
    | HourlyBucket    // "yyyy-MM-dd HH:mm:ss": a 19-character trends key
    | DailyBucket     // "yyyy-MM-dd HH:mm": a 16-character trends key
    | WeeklyBucket    // "yyyy-MM-dd": a 10-character trends key

  /** Locale- and zone-dependent text date parsing is not modelled: every mapper that
      reads a date receives the parser as a parameter; `None` means the text does not
      match the pattern. */
  type DateParser = (string, DateFormat) -> Option<Date>

  /** `parseDate(str, format)`: a string the pattern rejects is an error. */
  function ParseDate(s: string, format: DateFormat, dates: DateParser): (r: Result<Date>)
    ensures r.Success? <==> dates(s, format).Some?
    ensures r.Success? ==> r.value == dates(s, format).value
  {
    match dates(s, format)
    case Some(d) => Success(d)
    case None => Failure(BadDate)
  }

  /** `getInt(name, json)`: -1 for an absent or null member, the number (narrowed to
      `int`) for a numeric member or numeric string, an error for anything else. */
  function GetInt(name: string, json: Json): (r: Result<int>)
    ensures IsNull(json, name) ==> r == Success(-1)
    ensures r.Success? ==> IsInt(r.value)
    ensures var v := Opt(json, name); v.Some? && v.value.JNum? && IsInt(v.value.n) ==> r == Success(v.value.n)
    ensures var v := Opt(json, name); v.Some? && v.value.JStr? ==> (r.Success? <==> ParseInt(v.value.s).Some?)
  {
    match Opt(json, name)
    case None => Success(-1)
    case Some(JNull) => Success(-1)
    case Some(JNum(n)) => Success(ToInt32(n))
    case Some(JStr(s)) =>
      (match ParseInt(s)
       case Some(n) => Success(n)
       case None => Failure(NumberFormat))
    case Some(_) => Failure(NumberFormat)
  }

  /** `getLong(name, json)`: as `GetInt` over the `long` range. */
  function GetLong(name: string, json: Json): (r: Result<int>)
    ensures IsNull(json, name) ==> r == Success(-1)
    ensures r.Success? ==> IsLong(r.value)
    ensures var v := Opt(json, name); v.Some? && v.value.JNum? && IsLong(v.value.n) ==> r == Success(v.value.n)
    ensures var v := Opt(json, name); v.Some? && v.value.JStr? ==> (r.Success? <==> ParseLong(v.value.s).Some?)
  {
    match Opt(json, name)
    case None => Success(-1)
    case Some(JNull) => Success(-1)
    case Some(JNum(n)) => Success(ToInt64(n))
    case Some(JStr(s)) =>
      (match ParseLong(s)
       case Some(n) => Success(n)
       case None => Failure(NumberFormat))
    case Some(_) => Failure(NumberFormat)
  }

  /** `getBoolean(name, json)`: false when absent or null; `Boolean.valueOf` of the text
      otherwise, so only a JSON true or the text "true" (any letter case) reads as true. */
  function GetBoolean(name: string, json: Json): (r: bool)
    ensures IsNull(json, name) ==> !r
    ensures var v := Opt(json, name); v.Some? && v.value.JBool? ==> r == v.value.b
  {
    match Opt(json, name)
    case Some(JBool(b)) => b
    case Some(JStr(s)) => EqualsIgnoreCase(s, "true")
    case _ => false
  }

  /** `getText(name, json)` and `getString(name, json, decode)`: null when absent or null,
      the member's text otherwise. HTML-entity unescaping is not modelled. */
  function GetText(name: string, json: Json): (r: Option<string>)
    ensures IsNull(json, name) ==> r.None?
    ensures var v := Opt(json, name); v.Some? && v.value.JStr? ==> r == Some(v.value.s)
  {
    match Opt(json, name)
    case None => None
    case Some(JNull) => None
    case Some(v) => Render(v)
  }

  /** `getDate(name, json[, format])`: null when absent or null, the parsed instant for
      text the pattern accepts, an error otherwise. */
  function GetDate(name: string, json: Json, format: DateFormat, dates: DateParser): (r: Result<Option<Date>>)
    ensures IsNull(json, name) ==> r == Success(None)
    ensures var v := Opt(json, name); v.Some? && v.value.JStr? ==>
      (r.Success? <==> dates(v.value.s, format).Some?) && (r.Success? ==> r.value == dates(v.value.s, format))
  {
    match Opt(json, name)
    case None => Success(None)
    case Some(JNull) => Success(None)
    case Some(v) =>
      match Render(v)
      case None => Failure(BadDate)
      case Some(t) =>
        match dates(t, format)
        case Some(d) => Success(Some(d))
        case None => Failure(BadDate)
  }
}
