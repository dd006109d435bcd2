/**
 * The `scoreDetails` convention shared by the scorers: each line is a severity
 * glyph, a short explanation and the awarded points written inline as "(+N)".
 * Points are counted in half-points so that the DMARC reporting awards of
 * 12.5 are exact: half-point count h is written "(+h/2)" or "(+h/2.5)".
 */
module ScoreLines {
  import opened Js

  /** The four severities a score line can carry. */
  datatype Severity = Pass | Partial | Alert | Fail

  function Glyph(s: Severity): char {
    match s
    case Pass => '✓'
    case Partial => '~'
    case Alert => '!'
    case Fail => '✗'
  }

  /**
   * `prefix` followed by the inline award marker for `h` half-points,
   * e.g. "(+25)" for 50 or "(+12.5)" for 25.
   */
  function WithPoints(prefix: string, h: nat): string {
    prefix + "(+" + Decimal(h / 2) + (if h % 2 == 1 then ".5" else "") + ")"
  }

  /**
   * A score line: either an award (glyph, text and the awarded half-points,
   * written inline) or a plain note that announces no award.
   */
  datatype ScoreLine = Award(severity: Severity, text: string, half: nat) | Note(note: string)

  /** The text of a score line as it appears in a `scoreDetails` list. */
  function Render(l: ScoreLine): string {
    match l
    case Award(severity, text, h) => WithPoints([Glyph(severity)] + " " + text + " ", h)
    case Note(note) => note
  }

  function RenderAll(ls: seq<ScoreLine>): (r: seq<string>)
    ensures |r| == |ls|
    ensures forall i :: 0 <= i < |ls| ==> r[i] == Render(ls[i])
  {
    seq(|ls|, i requires 0 <= i < |ls| => Render(ls[i]))
  }

  /** Every line of the list is an award. */
  predicate AllAwards(ls: seq<ScoreLine>) {
    forall i :: 0 <= i < |ls| ==> ls[i].Award?
  }

  /** The half-points awarded by the award lines of a list. */
  function Awarded(ls: seq<ScoreLine>): nat {
    if ls == [] then 0
    else Awarded(ls[..|ls| - 1]) + (match ls[|ls| - 1] case Award(_, _, h) => h case Note(_) => 0)
  }

  /** Pushing an award line adds its points to what the list awards. */
  lemma PushAward(ls: seq<ScoreLine>, severity: Severity, text: string, h: nat)
    ensures Awarded(ls + [Award(severity, text, h)]) == Awarded(ls) + h
    ensures AllAwards(ls) ==> AllAwards(ls + [Award(severity, text, h)])
  {
    assert (ls + [Award(severity, text, h)])[..|ls|] == ls;
  }

  /** Two lists of lines award together what each awards alone. */
  lemma {:induction false} AwardedAppend(a: seq<ScoreLine>, b: seq<ScoreLine>)
    ensures Awarded(a + b) == Awarded(a) + Awarded(b)
    ensures AllAwards(a) && AllAwards(b) ==> AllAwards(a + b)
    decreases |b|
  {
    if b == [] {
      assert a + b == a;
    } else {
      var init := b[..|b| - 1];
      AwardedAppend(a, init);
      assert (a + b)[..|a + b| - 1] == a + init;
    }
  }

  /** The number written as "(+N" at the very end of `s`, if any. */
  function MarkerValue(s: string): Option<nat> {
    var k := TrailingDigits(s);
    if k == 0 || |s| < k + 2 || s[|s| - k - 2] != '(' || s[|s| - k - 1] != '+' then None
    else Some(DigitsValue(s[|s| - k..]))
  }

  /**
   * The award a score line announces, in half-points, read back from its
   * trailing "(+N)" or "(+N.5)" marker; None when the line carries no marker.
   */
  function DeltaOf(line: string): Option<nat> {
    if line == [] || line[|line| - 1] != ')' then None
    else
      var body := line[..|line| - 1];
      var half := EndsWith(body, ".5");
      match MarkerValue(if half then body[..|body| - 2] else body)
      case None => None
      case Some(n) => Some(2 * n + (if half then 1 else 0))
  }

  lemma MarkerValueOf(prefix: string, d: string)
    requires d != [] && AllDigits(d)
    ensures MarkerValue(prefix + "(+" + d) == Some(DigitsValue(d))
  {
    var head := prefix + "(+";
    TrailingDigitsAfter(head, d);
    var num := head + d;
    assert num[|num| - |d|..] == d;
    assert num[|num| - |d| - 2] == '(' && num[|num| - |d| - 1] == '+';
  }

  /** A line that ends in "(+N.5)" announces 2N + 1 half-points. */
  lemma HalfMarker(num: string, n: nat)
    requires MarkerValue(num) == Some(n)
    ensures DeltaOf(num + ".5" + ")") == Some(2 * n + 1)
  {
    var line := num + ".5" + ")";
    var body := line[..|line| - 1];
    assert body == num + ".5";
    assert body[..|body| - 2] == num;
  }

  /** A line that ends in "(+N)" announces 2N half-points. */
  lemma WholeMarker(num: string, n: nat)
    requires MarkerValue(num) == Some(n)
    ensures DeltaOf(num + "" + ")") == Some(2 * n)
  {
    var line := num + "" + ")";
    TrailingDigitsAreDigits(num);
    assert line[..|line| - 1] == num;
    assert num[|num| - 2] == '+' || IsDigit(num[|num| - 2]);
  }

  /** Whatever precedes it, an award marker is read back as the award it was written for. */
  lemma PointsRoundTrip(prefix: string, h: nat)
    ensures DeltaOf(WithPoints(prefix, h)) == Some(h)
  {
    var n := h / 2;
    var d := Decimal(n);
    var num := prefix + "(+" + d;
    DecimalRoundTrip(n);
    MarkerValueOf(prefix, d);
    if h % 2 == 1 {
      HalfMarker(num, n);
    } else {
      WholeMarker(num, n);
    }
  }

  /** Every award line announces exactly the award it carries. */
  lemma AwardDelta(severity: Severity, text: string, h: nat)
    ensures DeltaOf(Render(Award(severity, text, h))) == Some(h)
  {
    PointsRoundTrip([Glyph(severity)] + " " + text + " ", h);
  }

  /** Every line carries an award marker. */
  predicate AllMarked(lines: seq<string>) {
    forall i :: 0 <= i < |lines| ==> DeltaOf(lines[i]).Some?
  }

  /** The sum of the awards the lines announce (a line without a marker adds nothing). */
  function SumDeltas(lines: seq<string>): nat {
    if lines == [] then 0
    else SumDeltas(lines[..|lines| - 1]) + (match DeltaOf(lines[|lines| - 1]) case Some(d) => d case None => 0)
  }

  /**
   * Reading the rendered award lines back: every line carries a marker, and the
   * markers add up to exactly the points the list awards.
   */
  lemma {:induction false} AnnouncedAwards(ls: seq<ScoreLine>)
    requires AllAwards(ls)
    ensures AllMarked(RenderAll(ls))
    ensures SumDeltas(RenderAll(ls)) == Awarded(ls)
  {
    var r := RenderAll(ls);
    forall i | 0 <= i < |ls| ensures DeltaOf(r[i]) == Some(ls[i].half) {
      AwardDelta(ls[i].severity, ls[i].text, ls[i].half);
    }
    if ls != [] {
      var init := ls[..|ls| - 1];
      AnnouncedAwards(init);
      assert r[..|r| - 1] == RenderAll(init);
    }
  }
}
