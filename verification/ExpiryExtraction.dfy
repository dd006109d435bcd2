/**
 * The post-processing of the expiry extraction (app/api/openai/route.ts): the
 * completion text is parsed as JSON and its `expiry` kept only when it has the
 * lexical shape YYYY-MM-DD; anything else falls back to `{"expiry": null}`.
 * The completion call and `JSON.parse` are parameters.
 */
module ExpiryExtraction {
  import opened Js

  /** A JSON value as `JSON.parse` returns it (numbers are integers here). */
  datatype JsValue =
    | JNull
    | JBool(b: bool)
    | JNum(n: int)
    | JStr(s: string)
    | JArr(items: seq<JsValue>)
    | JObj(fields: map<string, JsValue>)

  /** The truthiness of a property read: undefined, null, false, 0 and "" are falsy. */
  predicate JsTruthy(v: Option<JsValue>) {
    match v
    case None => false
    case Some(JNull) => false
    case Some(JBool(b)) => b
    case Some(JNum(n)) => n != 0
    case Some(JStr(s)) => s != ""
    case Some(_) => true
  }

  /** `v.expiry`: a field of an object; every other non-null value has no such property. */
  function Property(v: JsValue, key: string): Option<JsValue> {
    match v
    case JObj(fields) => if key in fields then Some(fields[key]) else None
    case _ => None
  }

  /** `String(n)` for an integer. */
  function IntText(n: int): string {
    if n < 0 then "-" + Decimal(-n) else Decimal(n)
  }

  /**
   * `String(v)`, the conversion `RegExp.prototype.test` applies to its
   * argument: an array is its elements joined by commas, null elements empty.
   */
  function JsString(v: JsValue): string
    decreases v
  {
    match v
    case JNull => "null"
    case JBool(b) => if b then "true" else "false"
    case JNum(n) => IntText(n)
    case JStr(s) => s
    case JObj(_) => "[object Object]"
    case JArr(items) => if items == [] then "" else JoinWith(ItemTexts(v, items), ',')
  }

  function ItemTexts(arr: JsValue, items: seq<JsValue>): (r: seq<string>)
    requires forall i :: 0 <= i < |items| ==> items[i] < arr
    ensures |r| == |items|
    decreases arr, |items|
  {
    if items == [] then []
    else ItemTexts(arr, items[..|items| - 1]) + [if items[|items| - 1] == JNull then "" else JsString(items[|items| - 1])]
  }

  /** `/^\d{4}-\d{2}-\d{2}$/.test(s)`: four, two and two digits joined by dashes, nothing around them. */
  predicate IsDateShape(s: string) {
    |s| == 10 && AllDigits(s[..4]) && s[4] == '-' && AllDigits(s[5..7]) && s[7] == '-' && AllDigits(s[8..])
  }

  /**
   * The accepted texts are exactly the ten-character ones with digits at
   * positions 0-3, 5-6 and 8-9 and dashes at 4 and 7: month and day ranges
   * are not looked at.
   */
  lemma DateShapeByPosition(s: string)
    ensures IsDateShape(s) <==>
      && |s| == 10 && s[4] == '-' && s[7] == '-'
      && IsDigit(s[0]) && IsDigit(s[1]) && IsDigit(s[2]) && IsDigit(s[3])
      && IsDigit(s[5]) && IsDigit(s[6]) && IsDigit(s[8]) && IsDigit(s[9])
  {
    if |s| == 10 {
      assert s[..4][3] == s[3] && s[5..7][1] == s[6] && s[8..][1] == s[9];
    }
  }

  /** Any four, two and two digits joined by dashes pass the check. */
  lemma DateShapeOfParts(y: string, m: string, d: string)
    requires |y| == 4 && |m| == 2 && |d| == 2 && AllDigits(y) && AllDigits(m) && AllDigits(d)
    ensures IsDateShape(y + "-" + m + "-" + d)
  {
    var s := y + "-" + m + "-" + d;
    assert s[..4] == y && s[5..7] == m && s[8..] == d;
  }

  /** A month of 13 and a day of 45 pass the check. */
  lemma ImpossibleDateHasShape()
    ensures IsDateShape("2024-13-45")
  {
    DateShapeOfParts("2024", "13", "45");
  }

  /** The conversion lets an array holding one date-shaped string through as well. */
  lemma OneDateArrayHasShape(date: string)
    requires IsDateShape(date)
    ensures IsDateShape(JsString(JArr([JStr(date)])))
  {
    var v := JArr([JStr(date)]);
    assert ItemTexts(v, [JStr(date)]) == [date] by {
      assert [JStr(date)][..0] == [];
    }
  }

  /** The content used when the completion carries none. */
  const DefaultContent := "{\"expiry\": null}"

  /** `{ expiry: null }`, the fallback reply. */
  const NullReply := JObj(map["expiry" := JNull])

  /** `content || '{"expiry": null}'`: a missing or empty content reads as the default. */
  function ContentText(content: Option<string>): (text: string)
    ensures Truthy(content) ==> text == content.value
    ensures !Truthy(content) ==> text == DefaultContent
  {
    if Truthy(content) then content.value else DefaultContent
  }

  /** A truthy `expiry` whose text does not have the date shape: the inner `try` throws on it. */
  predicate Refused(v: JsValue) {
    JsTruthy(Property(v, "expiry")) && !IsDateShape(JsString(Property(v, "expiry").value))
  }

  /**
   * The inner `try`: parse the content, then refuse a truthy `expiry` whose
   * text does not have the date shape. A failed parse, reading a property of
   * null, or the refusal all land in the `catch`, which substitutes the
   * fallback reply; any other parsed value is returned as it is.
   */
  function Postprocess(content: Option<string>, parseJson: string -> Option<JsValue>): (r: JsValue)
    ensures parseJson(ContentText(content)).None? ==> r == NullReply
    ensures parseJson(ContentText(content)) == Some(JNull) ==> r == NullReply
    ensures r == NullReply || Some(r) == parseJson(ContentText(content))
    ensures JsTruthy(Property(r, "expiry")) ==> IsDateShape(JsString(Property(r, "expiry").value))
    ensures parseJson(ContentText(content)).Some? && Refused(parseJson(ContentText(content)).value) ==> r == NullReply
    ensures match parseJson(ContentText(content))
      case Some(v) => v != JNull && !Refused(v) ==> r == v
      case None => true
  {
    match parseJson(ContentText(content))
    case None => NullReply
    case Some(JNull) => NullReply
    case Some(v) =>
      if Refused(v) then NullReply else v
  }

  /** Missing or empty content is the default content, read as `{"expiry": null}`. */
  lemma MissingContentIsNull(content: Option<string>, parseJson: string -> Option<JsValue>)
    requires !Truthy(content)
    requires parseJson(DefaultContent) == Some(NullReply)
    ensures Postprocess(content, parseJson) == NullReply
  {
  }

  /** An object whose `expiry` is a date-shaped string is returned unchanged. */
  lemma DateShapedExpiryKept(content: Option<string>, parseJson: string -> Option<JsValue>, fields: map<string, JsValue>, date: string)
    requires parseJson(ContentText(content)) == Some(JObj(fields))
    requires "expiry" in fields && fields["expiry"] == JStr(date) && IsDateShape(date)
    ensures Postprocess(content, parseJson) == JObj(fields)
  {
  }

  /** A non-empty `expiry` string without the date shape is replaced by the fallback. */
  lemma MalformedExpiryNulled(content: Option<string>, parseJson: string -> Option<JsValue>, fields: map<string, JsValue>, text: string)
    requires parseJson(ContentText(content)) == Some(JObj(fields))
    requires "expiry" in fields && fields["expiry"] == JStr(text) && text != "" && !IsDateShape(text)
    ensures Postprocess(content, parseJson) == NullReply
  {
  }

  /** The reply of the route: a status and a JSON body. */
  datatype Reply = Reply(status: nat, body: JsValue)

  const MissingWhoisReply := Reply(400, JObj(map["error" := JStr("WHOIS data is required")]))

  /**
   * What the completion call gives: the call itself failed (it throws outside
   * the inner `try`), the answer has no `choices[0].message` (reading it throws
   * inside the inner `try`), or the first message's `content`, None when
   * absent or null.
   */
  datatype Completion = CallFailed | NoMessage | Content(content: Option<string>)

  /**
   * POST /api/openai. `request` is the parsed request (None when it could not
   * be read) with its `whoisData`; `complete(whoisData)` is the completion. A
   * falsy `whoisData` is refused before the call; a failure outside the inner
   * `try` is a 500 carrying the fallback, one inside it a 200 carrying it.
   */
  function ExtractExpiry(request: Option<Option<string>>, complete: string -> Completion, parseJson: string -> Option<JsValue>): (r: Reply)
    ensures request.None? ==> r == Reply(500, NullReply)
    ensures request.Some? && !Truthy(request.value) ==> r == MissingWhoisReply
    ensures request.Some? && Truthy(request.value) && complete(request.value.value).CallFailed? ==> r == Reply(500, NullReply)
    ensures request.Some? && Truthy(request.value) && complete(request.value.value).NoMessage? ==> r == Reply(200, NullReply)
    ensures request.Some? && Truthy(request.value) && complete(request.value.value).Content? ==>
      r == Reply(200, Postprocess(complete(request.value.value).content, parseJson))
    ensures r.status == 200 && JsTruthy(Property(r.body, "expiry")) ==> IsDateShape(JsString(Property(r.body, "expiry").value))
  {
    match request
    case None => Reply(500, NullReply)
    case Some(whoisData) =>
      if !Truthy(whoisData) then MissingWhoisReply
      else
        match complete(whoisData.value)
        case CallFailed => Reply(500, NullReply)
        case NoMessage => Reply(200, NullReply)
        case Content(content) => Reply(200, Postprocess(content, parseJson))
  }
}
