/** The already-parsed JSON tree and the `JSONObject` / `JSONArray` accessors the
    mappers call. An object is a sequence of members because `JSONObject.keys()`
    iterates in an unspecified order: the sequence fixes one such order. */
module OrgJson {
  import opened Wrappers
  import opened JavaNumbers

  datatype Json =
    | JNull
    | JBool(b: bool)
    | JNum(n: int)
    | JReal(r: real, text: string)  // a fraction, with the text org.json prints for it
    | JStr(s: string)
    | JArr(items: seq<Json>)
    | JObj(members: seq<(string, Json)>)

  /** The first member named `key`, if any. */
  function Find(members: seq<(string, Json)>, key: string): (r: Option<Json>)
    ensures r.Some? ==> exists i :: 0 <= i < |members| && members[i] == (key, r.value)
    ensures members == [] ==> r.None?
  {
    if members == [] then None
    else if members[0].0 == key then Some(members[0].1)
    else
      var r := Find(members[1..], key);
      assert r.Some? ==> exists i :: 0 <= i < |members[1..]| && members[1..][i] == (key, r.value);
      r
  }

  /** Looking up the key of member i finds member i's value when no earlier member
      has that key. */
  lemma {:induction false} FindAt(members: seq<(string, Json)>, i: nat, key: string)
    requires i < |members| && members[i].0 == key
    requires forall j :: 0 <= j < i ==> members[j].0 != key
    ensures Find(members, key) == Some(members[i].1)
  {
    if i > 0 {
      FindAt(members[1..], i - 1, key);
    }
  }

  /** `JSONObject.opt(key)`: the member's value, or `None` when the key is absent.
      The value is always a strict part of the object, which is what lets the
      recursive mappers terminate on the shape of the tree. */
  function Opt(obj: Json, key: string): (r: Option<Json>)
    ensures r.Some? ==> r.value < obj
    ensures !obj.JObj? ==> r.None?
  {
    if obj.JObj? then Find(obj.members, key) else None
  }

  /** `JSONObject.isNull(key)`: true when the key is absent or bound to JSON null. */
  predicate IsNull(obj: Json, key: string) {
    Opt(obj, key) == None || Opt(obj, key) == Some(JNull)
  }

  /** `JSONObject.getJSONObject(key)`: the member, which must be present and an object. */
  function GetJSONObject(obj: Json, key: string): (r: Result<Json>)
    ensures r.Success? <==> Opt(obj, key).Some? && Opt(obj, key).value.JObj?
    ensures r.Success? ==> r.value.JObj? && r.value < obj && !IsNull(obj, key)
  {
    match Opt(obj, key)
    case Some(JObj(ms)) => Success(JObj(ms))
    case _ => Failure(JsonError)
  }

  /** `JSONObject.getJSONArray(key)`: the member, which must be present and an array. */
  function GetJSONArray(obj: Json, key: string): (r: Result<seq<Json>>)
    ensures r.Success? <==> Opt(obj, key).Some? && Opt(obj, key).value.JArr?
    ensures r.Success? ==> Opt(obj, key) == Some(JArr(r.value))
  {
    match Opt(obj, key)
    case Some(JArr(items)) => Success(items)
    case _ => Failure(JsonError)
  }

  /** The text org.json gives a value where a string is asked for (`getString`,
      `JSONArray.getString`, `toString`): a string is itself, JSON null the text "null", a
      boolean "true"/"false", an integer its decimal digits, a fraction its printed text,
      an array of such atoms "[" and the atoms joined by "," and "]". The rendering of
      objects, and of strings or compound values inside arrays (quoting, escaping), is
      not modelled (`None`). */
  function Render(v: Json): (r: Option<string>)
    ensures v.JStr? ==> r == Some(v.s)
    ensures v.JNum? ==> r.Some? && IsDecimal(r.value) && DecimalValue(r.value) == v.n
    ensures v.JReal? ==> r == Some(v.text)
    ensures v.JObj? ==> r.None?
    ensures v.JArr? && r.Some? ==> |r.value| >= 2 && r.value[0] == '[' && r.value[|r.value| - 1] == ']'
  {
    match v
    case JStr(s) => Some(s)
    case JObj(_) => None
    case JArr(items) =>
      (match RenderAtoms(items)
       case Some(t) => Some("[" + t + "]")
       case None => None)
    case _ => Some(RenderAtom(v))
  }

  predicate IsAtom(v: Json) {
    v.JNull? || v.JBool? || v.JNum? || v.JReal?
  }

  function RenderAtom(v: Json): string
    requires IsAtom(v)
  {
    match v
    case JNull => "null"
    case JBool(b) => if b then "true" else "false"
    case JNum(n) => Decimal(n)
    case JReal(_, t) => t
  }

  /** The atoms of an array, rendered and joined by ",". */
  function RenderAtoms(items: seq<Json>): (r: Option<string>)
    ensures r.Some? <==> forall i :: 0 <= i < |items| ==> IsAtom(items[i])
  {
    if items == [] then Some("")
    else if !IsAtom(items[0]) then None
    else if |items| == 1 then Some(RenderAtom(items[0]))
    else
      match RenderAtoms(items[1..])
      case Some(t) => Some(RenderAtom(items[0]) + "," + t)
      case None => None
  }

  /** `JSONObject.getString(key)`: the rendering of a present member; an absent key is a
      JSONException. A JSON null therefore reads as the four-letter text "null". */
  function GetString(obj: Json, key: string): (r: Result<string>)
    ensures Opt(obj, key).None? ==> r.Failure?
    ensures Opt(obj, key) == Some(JNull) ==> r == Success("null")
    ensures var v := Opt(obj, key); v.Some? && v.value.JStr? ==> r == Success(v.value.s)
  {
    match Opt(obj, key)
    case None => Failure(JsonError)
    case Some(v) =>
      match Render(v)
      case Some(t) => Success(t)
      case None => Failure(JsonError)
  }

  /** The integer part of a real, truncated toward zero as Java's `(long) d` does. */
  function Truncate(r: real): int {
    if r >= 0.0 then r.Floor else -((-r).Floor)
  }

  /** The number `JSONObject.getInt` / `getLong` read from a member, narrowed into
      [lo, hi] the way Java narrows it: `Number.intValue()` wraps an integer that fits a
      `long`; an integer literal beyond the `long` range is kept as a `double` by the
      parser, and the cast of a `double` (such a literal, a fraction, or a numeric
      string) saturates. */
  function NumberIn(v: Json, lo: int, hi: int, wrap: int -> int): (r: Result<int>)
    requires LONG_MIN <= lo <= hi <= LONG_MAX
    ensures v.JNum? && IsLong(v.n) ==> r == Success(wrap(v.n))
    ensures v.JNum? && !IsLong(v.n) ==> r == Success(if v.n < 0 then lo else hi)
  {
    match v
    case JNum(n) => if IsLong(n) then Success(wrap(n)) else Success(Saturate(n, lo, hi))
    case JReal(x, _) => Success(Saturate(Truncate(x), lo, hi))
    case JStr(s) => if IsDecimal(s) then Success(Saturate(DecimalValue(s), lo, hi)) else Failure(JsonError)
    case _ => Failure(JsonError)
  }

  /** `JSONObject.getInt(key)`: a present numeric member (or numeric string); anything
      else, including an absent key or JSON null, is a JSONException. */
  function GetInt(obj: Json, key: string): (r: Result<int>)
    ensures r.Success? ==> IsInt(r.value)
    ensures r.Success? ==> Opt(obj, key).Some? && !IsNull(obj, key)
    ensures var v := Opt(obj, key); v.Some? && v.value.JNum? && IsInt(v.value.n) ==> r == Success(v.value.n)
  {
    match Opt(obj, key)
    case None => Failure(JsonError)
    case Some(v) =>
      var r := NumberIn(v, INT_MIN, INT_MAX, ToInt32);
      assert r.Success? ==> IsInt(r.value);
      r
  }

  /** `JSONObject.getLong(key)`, as `GetInt` over the `long` range. */
  function GetLong(obj: Json, key: string): (r: Result<int>)
    ensures r.Success? ==> IsLong(r.value)
    ensures r.Success? ==> Opt(obj, key).Some? && !IsNull(obj, key)
    ensures var v := Opt(obj, key); v.Some? && v.value.JNum? && IsLong(v.value.n) ==> r == Success(v.value.n)
  {
    match Opt(obj, key)
    case None => Failure(JsonError)
    case Some(v) =>
      var r := NumberIn(v, LONG_MIN, LONG_MAX, ToInt64);
      assert r.Success? ==> IsLong(r.value);
      r
  }

  /** `JSONObject.getDouble(key)`; a `double` is modelled by the exact `real` it denotes. */
  function GetDouble(obj: Json, key: string): (r: Result<real>)
    ensures r.Success? ==> Opt(obj, key).Some? && !IsNull(obj, key)
    ensures var v := Opt(obj, key); v.Some? && v.value.JNum? ==> r == Success(v.value.n as real)
  {
    match Opt(obj, key)
    case Some(JNum(n)) => Success(n as real)
    case Some(JReal(x, _)) => Success(x)
    case Some(JStr(s)) => if IsDecimal(s) then Success(DecimalValue(s) as real) else Failure(JsonError)
    case _ => Failure(JsonError)
  }

  function LowerAscii(c: char): char {
    if 'A' <= c <= 'Z' then (c as int + 32) as char else c
  }

  /** `String.equalsIgnoreCase` restricted to ASCII letters. */
  predicate EqualsIgnoreCase(s: string, t: string) {
    |s| == |t| && forall i :: 0 <= i < |s| ==> LowerAscii(s[i]) == LowerAscii(t[i])
  }

  /** `JSONObject.getBoolean(key)`: a JSON boolean, or the string "true" / "false" in any
      letter case; anything else is a JSONException. */
  function GetBoolean(obj: Json, key: string): (r: Result<bool>)
    ensures r.Success? ==> Opt(obj, key).Some? && !IsNull(obj, key)
    ensures var v := Opt(obj, key); v.Some? && v.value.JBool? ==> r == Success(v.value.b)
  {
    match Opt(obj, key)
    case Some(JBool(b)) => Success(b)
    case Some(JStr(s)) =>
      if EqualsIgnoreCase(s, "true") then Success(true)
      else if EqualsIgnoreCase(s, "false") then Success(false)
      else Failure(JsonError)
    case _ => Failure(JsonError)
  }

  /** `JSONArray.getJSONObject(i)`: element i, which must be an object. */
  function ElementObject(items: seq<Json>, i: nat): (r: Result<Json>)
    requires i < |items|
    ensures r.Success? <==> items[i].JObj?
    ensures r.Success? ==> r.value == items[i]
  {
    if items[i].JObj? then Success(items[i]) else Failure(JsonError)
  }
}
