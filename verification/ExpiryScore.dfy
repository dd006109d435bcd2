/**
 * The expiry scorer (app/api/expiry-score/route.ts): the whole days left until
 * the registration expires, a five-tier score and the message for the score.
 * The clock and the date parser are parameters: `nowMs` is the current time and
 * `parseDate(text)` the time `new Date(text)` denotes, None for an Invalid Date.
 */
module ExpiryScore {
  import opened Js

  /** `1000 * 60 * 60 * 24`, the milliseconds of one day. */
  const MsPerDay: nat := 1000 * 60 * 60 * 24

  /** What the subtraction of two times and the division by a day give: a number of days, or NaN. */
  datatype JsDays = Days(n: int) | NaN

  /**
   * `Math.ceil((expiry - now) / MsPerDay)`: the least number of whole days
   * that covers the time left (negative once the date has passed).
   */
  function CeilDays(expiryMs: int, nowMs: int): (days: int)
    ensures MsPerDay * (days - 1) < expiryMs - nowMs <= MsPerDay * days
  {
    -((nowMs - expiryMs) / MsPerDay)
  }

  /** A time exactly `n` days ahead is `n` days away, and one millisecond more is `n + 1`. */
  lemma CeilDaysExact(nowMs: int, n: int)
    ensures CeilDays(nowMs + MsPerDay * n, nowMs) == n
    ensures CeilDays(nowMs + MsPerDay * n + 1, nowMs) == n + 1
  {
    var d := CeilDays(nowMs + MsPerDay * n, nowMs);
    assert MsPerDay * (d - 1) < MsPerDay * n <= MsPerDay * d;
    var e := CeilDays(nowMs + MsPerDay * n + 1, nowMs);
    assert MsPerDay * (e - 1) < MsPerDay * n + 1 <= MsPerDay * e;
  }

  /** calculateDaysUntilExpiry: NaN when the date does not parse. */
  function DaysUntilExpiry(expiry: string, nowMs: int, parseDate: string -> Option<int>): (d: JsDays)
    ensures d.NaN? <==> parseDate(expiry).None?
    ensures d.Days? ==> MsPerDay * (d.n - 1) < parseDate(expiry).value - nowMs <= MsPerDay * d.n
  {
    match parseDate(expiry)
    case None => NaN
    case Some(ms) => Days(CeilDays(ms, nowMs))
  }

  /**
   * calculateScore on a number of days: the first tier whose bound the days
   * do not exceed. The score reaches 25, 50, 75 and 100 exactly when the
   * days pass 1, 7, 30 and 180.
   */
  function Tier(days: int): (score: nat)
    ensures score <= 100 && score % 25 == 0
    ensures score >= 25 <==> days > 1
    ensures score >= 50 <==> days > 7
    ensures score >= 75 <==> days > 30
    ensures score == 100 <==> days > 180
  {
    if days <= 1 then 0
    else if days <= 7 then 25
    else if days <= 30 then 50
    else if days <= 180 then 75
    else 100
  }

  /** The score never falls as the expiry moves further away. */
  lemma {:induction false} TierMonotone(a: int, b: int)
    requires a <= b
    ensures Tier(a) <= Tier(b)
  {
    var sa, sb := Tier(a), Tier(b);
    assert sa >= 25 ==> sb >= 25;
    assert sa >= 50 ==> sb >= 50;
    assert sa >= 75 ==> sb >= 75;
  }

  /** calculateScore on what the day count gave: every comparison with NaN is false, so NaN falls through to 100. */
  function CalculateScore(d: JsDays): (score: nat)
    ensures d.NaN? ==> score == 100
    ensures d.Days? ==> score == Tier(d.n)
  {
    match d
    case NaN => 100
    case Days(n) => Tier(n)
  }

  const HealthyMessage := "Domain expiry is healthy (>6 months)"
  const SixMonthsMessage := "Domain expires in less than 6 months"
  const MonthMessage := "Domain expires in less than 1 month"
  const WeekMessage := "Domain expires in less than 1 week"
  const DayMessage := "Domain expires in less than 1 day"
  const NoExpiryMessage := "No expiry date provided"
  const FailedMessage := "Failed to calculate expiry score"

  /** The message of a score: one per tier; every other score reads as the last tier. */
  function Message(score: nat): string {
    if score == 100 then HealthyMessage
    else if score == 75 then SixMonthsMessage
    else if score == 50 then MonthMessage
    else if score == 25 then WeekMessage
    else DayMessage
  }

  /** Each of the five scores has its own message, and none reads as a missing date. */
  lemma MessagesTellScoresApart(a: nat, b: nat)
    requires a % 25 == 0 && a <= 100 && b % 25 == 0 && b <= 100
    ensures Message(a) == Message(b) <==> a == b
    ensures Message(a) != NoExpiryMessage
  {
    assert |HealthyMessage| == 36 && |SixMonthsMessage| == 36 && |MonthMessage| == 35;
    assert |WeekMessage| == 34 && |DayMessage| == 33 && |NoExpiryMessage| == 23;
    assert HealthyMessage[12] == 'y' && SixMonthsMessage[12] == 'e';
  }

  /** The reply of the route: status, score, message and the day count (null when absent or NaN). */
  datatype ExpiryReply = ExpiryReply(status: nat, score: nat, message: string, daysUntilExpiry: Option<int>)

  /** What `JSON` makes of the day count: NaN is written as null. */
  function DaysJson(d: JsDays): Option<int> {
    match d
    case NaN => None
    case Days(n) => Some(n)
  }

  /**
   * POST /api/expiry-score. `body` is the parsed request and `body.value` its
   * `expiry` field: None when reading the body throws (the body is not JSON, or
   * is JSON `null`); any other body without an `expiry` (an array, a number,
   * a string, an object lacking the field) reads it as undefined, `Some(None)`. A falsy expiry is
   * refused with 400 before anything is computed; otherwise the score is
   * calculated from the days left.
   */
  function ExpiryPost(body: Option<Option<string>>, nowMs: int, parseDate: string -> Option<int>): (r: ExpiryReply)
    ensures body.None? ==> r == ExpiryReply(500, 0, FailedMessage, None)
    ensures body.Some? && !Truthy(body.value) ==> r == ExpiryReply(400, 0, NoExpiryMessage, None)
    ensures body.Some? && Truthy(body.value) ==>
      && r.status == 200
      && r.score == CalculateScore(DaysUntilExpiry(body.value.value, nowMs, parseDate))
      && r.message == Message(r.score)
      && r.daysUntilExpiry == DaysJson(DaysUntilExpiry(body.value.value, nowMs, parseDate))
  {
    match body
    case None => ExpiryReply(500, 0, FailedMessage, None)
    case Some(expiry) =>
      if !Truthy(expiry) then ExpiryReply(400, 0, NoExpiryMessage, None)
      else
        var days := DaysUntilExpiry(expiry.value, nowMs, parseDate);
        var score := CalculateScore(days);
        ExpiryReply(200, score, Message(score), DaysJson(days))
  }

  /**
   * The missing date and the scored zero are told apart: both score 0, but
   * only the refusal is a 400 saying that no date was provided.
   */
  lemma MissingIsNotScoredZero(body: Option<Option<string>>, nowMs: int, parseDate: string -> Option<int>)
    requires body.Some?
    ensures var r := ExpiryPost(body, nowMs, parseDate);
      (r.message == NoExpiryMessage <==> !Truthy(body.value)) && (r.status == 400 <==> !Truthy(body.value))
  {
    var r := ExpiryPost(body, nowMs, parseDate);
    if Truthy(body.value) {
      MessagesTellScoresApart(r.score, r.score);
    }
  }

  /** On the scored path the score is the tier of the returned day count, and 100 when that count is null. */
  lemma ScoreMatchesReturnedDays(expiry: string, nowMs: int, parseDate: string -> Option<int>)
    requires expiry != ""
    ensures var r := ExpiryPost(Some(Some(expiry)), nowMs, parseDate);
      match r.daysUntilExpiry
      case Some(n) => r.score == Tier(n)
      case None => r.score == 100
  {
  }

  /**
   * As written, a date that does not parse (the shape check on the extracted
   * expiry lets "2024-13-45" through) yields NaN days, and NaN passes none of
   * the tier tests: the reply calls the expiry healthy, with no day count.
   */
  lemma UnparsedDateLooksHealthy(nowMs: int, parseDate: string -> Option<int>)
    requires parseDate("2024-13-45") == None
    ensures ExpiryPost(Some(Some("2024-13-45")), nowMs, parseDate) == ExpiryReply(200, 100, HealthyMessage, None)
  {
  }

  /**
   * The evidently intended behaviour: a date that does not parse is treated
   * like a missing one instead of being scored.
   */
  function ExpiryPostChecked(body: Option<Option<string>>, nowMs: int, parseDate: string -> Option<int>): (r: ExpiryReply)
    ensures body.Some? && Truthy(body.value) && parseDate(body.value.value).Some? ==> r == ExpiryPost(body, nowMs, parseDate)
    ensures r.score == 100 ==> r.daysUntilExpiry.Some? && r.daysUntilExpiry.value > 180
    ensures r.status == 200 ==> r.daysUntilExpiry.Some? && r.score == Tier(r.daysUntilExpiry.value)
  {
    match body
    case Some(Some(expiry)) =>
      if expiry != "" && parseDate(expiry).None? then ExpiryReply(400, 0, NoExpiryMessage, None)
      else ExpiryPost(body, nowMs, parseDate)
    case _ => ExpiryPost(body, nowMs, parseDate)
  }
}
