/**
 * The email-authentication scorer (app/api/email-security/route.ts): an SPF
 * analyser and a DMARC analyser, each building a score and two parallel
 * lists of findings, the selection of the TXT record each one scores, and the
 * combined answer of the route.
 *
 * Scores are counted in half-points (25 points = 50 half-points) so that the
 * DMARC reporting awards of 12.5 points are exact integers.
 */
module EmailSecurity {
  import opened Js
  import opened ScoreLines
  import opened Http

  /** What one analyser produces: findings, score in half-points, score breakdown. */
  datatype AuthAnalysis = AuthAnalysis(details: seq<string>, score: nat, scoreLines: seq<ScoreLine>)

  /** One half of the route's answer (the `spf` or `dmarc` object). */
  datatype RecordReport = RecordReport(
    recordExists: bool,
    record: Option<string>,
    details: seq<string>,
    score: nat,
    scoreDetails: seq<string>)

  datatype EmailSecurityAnalysis = EmailSecurityAnalysis(spf: RecordReport, dmarc: RecordReport, totalScore: int)

  // ---------------------------------------------------------------------------
  // SPF

  /** The SPF `all` qualifier that decides the policy award, by first match. */
  datatype SpfPolicy = HardFail | SoftFail | Neutral | Permissive | Unqualified

  /** The policy of an SPF record: plain substring tests, `-all` first, then `~all`, `?all`, `+all`. */
  function SpfPolicyOf(record: string): SpfPolicy {
    if Includes(record, "-all") then HardFail
    else if Includes(record, "~all") then SoftFail
    else if Includes(record, "?all") then Neutral
    else if Includes(record, "+all") then Permissive
    else Unqualified
  }

  /** The policy award in half-points: 25, 15, 5 and 0 points. */
  function SpfAward(p: SpfPolicy): nat {
    match p
    case HardFail => 50
    case SoftFail => 30
    case Neutral => 10
    case Permissive => 0
    case Unqualified => 0
  }

  const NoSpfFinding := "No SPF record found - This may lead to emails being marked as spam"
  const PermissiveSpfFinding := "WARNING: Permissive SPF policy - Not recommended for security"
  const SpfFoundFinding := "SPF record found"
  const NoSpfLine := "No SPF record configured"
  const SpfExistsLine := "SPF record exists"
  const HardFailFinding := "Strict SPF policy (hard fail) - Good for security"
  const HardFailLine := "Strict policy configured"
  const SoftFailFinding := "Moderate SPF policy (soft fail)"
  const SoftFailLine := "Moderate policy configured"
  const NeutralFinding := "Neutral SPF policy - Consider stricter settings"
  const NeutralLine := "Neutral policy configured"
  const PermissiveLine := "Permissive policy - security risk"

  /** The finding the policy section reports for each policy; none without a qualifier. */
  function SpfPolicyDetails(p: SpfPolicy): seq<string> {
    match p
    case HardFail => [HardFailFinding]
    case SoftFail => [SoftFailFinding]
    case Neutral => [NeutralFinding]
    case Permissive => [PermissiveSpfFinding]
    case Unqualified => []
  }

  /** The score line of each policy: pass, partial, alert and fail as the policy loosens. */
  function SpfPolicyLines(p: SpfPolicy): seq<ScoreLine> {
    match p
    case HardFail => [Award(Pass, HardFailLine, 50)]
    case SoftFail => [Award(Partial, SoftFailLine, 30)]
    case Neutral => [Award(Alert, NeutralLine, 10)]
    case Permissive => [Award(Fail, PermissiveLine, 0)]
    case Unqualified => []
  }

  /**
   * Each qualified policy has one finding and one line, the line announces
   * exactly the policy's award, and the four policies carry four different
   * severities.
   */
  lemma SpfPolicyLinesAnnounceAward(p: SpfPolicy, q: SpfPolicy)
    ensures |SpfPolicyDetails(p)| == |SpfPolicyLines(p)| == if p == Unqualified then 0 else 1
    ensures AllAwards(SpfPolicyLines(p)) && Awarded(SpfPolicyLines(p)) == SpfAward(p)
    ensures p != Unqualified && q != Unqualified ==>
      (SpfPolicyLines(p)[0].severity == SpfPolicyLines(q)[0].severity <==> p == q)
  {
    PushAward([], Pass, HardFailLine, 50);
    PushAward([], Partial, SoftFailLine, 30);
    PushAward([], Alert, NeutralLine, 10);
    PushAward([], Fail, PermissiveLine, 0);
  }

  /**
   * The policy section of analyzeSPF: the first `all` qualifier found earns its
   * award with one finding and one score line; `+all` earns nothing but is
   * flagged; a record with none of them adds nothing.
   */
  method AddSpfPolicy(r: string, details: seq<string>, scoreLines: seq<ScoreLine>, score: nat)
    returns (details': seq<string>, scoreLines': seq<ScoreLine>, score': nat)
    ensures score' == score + SpfAward(SpfPolicyOf(r))
    ensures details' == details + SpfPolicyDetails(SpfPolicyOf(r))
    ensures scoreLines' == scoreLines + SpfPolicyLines(SpfPolicyOf(r))
    ensures |details'| == |details| + (if SpfPolicyOf(r) == Unqualified then 0 else 1)
    ensures |scoreLines'| == |scoreLines| + (if SpfPolicyOf(r) == Unqualified then 0 else 1)
    ensures details'[..|details|] == details && scoreLines'[..|scoreLines|] == scoreLines
    ensures SpfPolicyOf(r) == Permissive ==> details'[|details|] == PermissiveSpfFinding
    ensures AllAwards(scoreLines) ==> AllAwards(scoreLines')
    ensures Awarded(scoreLines') == Awarded(scoreLines) + SpfAward(SpfPolicyOf(r))
  {
    details', scoreLines', score' := details, scoreLines, score;
    if Includes(r, "-all") {
      score' := score' + 50;
      details' := details' + [HardFailFinding];
      PushAward(scoreLines', Pass, HardFailLine, 50);
      scoreLines' := scoreLines' + [Award(Pass, HardFailLine, 50)];
    } else if Includes(r, "~all") {
      score' := score' + 30;
      details' := details' + [SoftFailFinding];
      PushAward(scoreLines', Partial, SoftFailLine, 30);
      scoreLines' := scoreLines' + [Award(Partial, SoftFailLine, 30)];
    } else if Includes(r, "?all") {
      score' := score' + 10;
      details' := details' + [NeutralFinding];
      PushAward(scoreLines', Alert, NeutralLine, 10);
      scoreLines' := scoreLines' + [Award(Alert, NeutralLine, 10)];
    } else if Includes(r, "+all") {
      details' := details' + [PermissiveSpfFinding];
      PushAward(scoreLines', Fail, PermissiveLine, 0);
      scoreLines' := scoreLines' + [Award(Fail, PermissiveLine, 0)];
    }
  }

  /** The score of analyzeSPF in half-points: nothing without a record, else the base award and the policy award. */
  function SpfScoreOf(record: Option<string>): nat {
    if Truthy(record) then 50 + SpfAward(SpfPolicyOf(record.value)) else 0
  }

  /** The findings of analyzeSPF: the absence, or the presence followed by the policy's finding. */
  function SpfDetailsOf(record: Option<string>): seq<string> {
    if Truthy(record) then [SpfFoundFinding] + SpfPolicyDetails(SpfPolicyOf(record.value)) else [NoSpfFinding]
  }

  /** The score lines of analyzeSPF, in the order of the findings. */
  function SpfLinesOf(record: Option<string>): seq<ScoreLine> {
    if Truthy(record) then [Award(Pass, SpfExistsLine, 50)] + SpfPolicyLines(SpfPolicyOf(record.value))
    else [Award(Fail, NoSpfLine, 0)]
  }

  /**
   * analyzeSPF: an absent record scores nothing and says so once; a present one
   * earns the base award plus the award of its policy, and every award comes
   * with exactly one finding and one score line announcing the same points.
   */
  method AnalyzeSpf(record: Option<string>) returns (a: AuthAnalysis)
    ensures a == AuthAnalysis(SpfDetailsOf(record), SpfScoreOf(record), SpfLinesOf(record))
    ensures |a.details| == |a.scoreLines| >= 1
    ensures !Truthy(record) ==>
      a == AuthAnalysis([NoSpfFinding], 0, [Award(Fail, NoSpfLine, 0)])
    ensures Truthy(record) ==> a.score == 50 + SpfAward(SpfPolicyOf(record.value))
    ensures Truthy(record) ==>
      a.details[0] == SpfFoundFinding && a.scoreLines[0] == Award(Pass, SpfExistsLine, 50)
    ensures Truthy(record) ==>
      |a.scoreLines| == if SpfPolicyOf(record.value) == Unqualified then 1 else 2
    ensures Truthy(record) && SpfPolicyOf(record.value) == Permissive ==>
      a.details[1] == PermissiveSpfFinding
    ensures a.score == 0 <==> !Truthy(record)
    ensures a.score in {0, 50, 60, 80, 100}
    ensures AllAwards(a.scoreLines) && Awarded(a.scoreLines) == a.score
  {
    var details: seq<string> := [];
    var scoreLines: seq<ScoreLine> := [];
    var score: nat := 0;

    if !Truthy(record) {
      details := details + [NoSpfFinding];
      PushAward(scoreLines, Fail, NoSpfLine, 0);
      scoreLines := scoreLines + [Award(Fail, NoSpfLine, 0)];
      assert details == [NoSpfFinding];
      return AuthAnalysis(details, score, scoreLines);
    }
    var r := record.value;

    score := score + 50;
    details := details + [SpfFoundFinding];
    PushAward(scoreLines, Pass, SpfExistsLine, 50);
    scoreLines := scoreLines + [Award(Pass, SpfExistsLine, 50)];
    assert details == [SpfFoundFinding] && scoreLines == [Award(Pass, SpfExistsLine, 50)];

    details, scoreLines, score := AddSpfPolicy(r, details, scoreLines, score);
    assert details[0] == SpfFoundFinding && scoreLines[0] == Award(Pass, SpfExistsLine, 50);
    assert score in {50, 60, 80, 100} by {
      match SpfPolicyOf(r)
      case HardFail =>
      case SoftFail =>
      case Neutral =>
      case Permissive =>
      case Unqualified =>
    }

    return AuthAnalysis(details, score, scoreLines);
  }

  // ---------------------------------------------------------------------------
  // DMARC

  /** `/p=(\w+)/` matches at index `i`: "p=" followed by at least one word character. */
  predicate PolicyTagAt(s: string, i: int) {
    0 <= i && i + 2 < |s| && s[i] == 'p' && s[i + 1] == '=' && IsWordChar(s[i + 2])
  }

  /** The leftmost index at which `/p=(\w+)/` matches, if any. */
  function FirstPolicyTag(s: string): (r: Option<nat>)
    ensures r.Some? ==> PolicyTagAt(s, r.value)
    ensures r.Some? ==> forall j :: 0 <= j < r.value ==> !PolicyTagAt(s, j)
    ensures r.None? ==> forall j :: !PolicyTagAt(s, j)
    decreases |s|
  {
    if |s| < 3 then None
    else if PolicyTagAt(s, 0) then Some(0)
    else
      assert forall j :: 1 <= j ==> (PolicyTagAt(s, j) <==> PolicyTagAt(s[1..], j - 1));
      match FirstPolicyTag(s[1..])
      case None => None
      case Some(k) => Some(k + 1)
  }

  /** The greedy `\w+` capture: the longest prefix of word characters. */
  function WordRun(s: string): (w: string)
    ensures StartsWith(s, w)
    ensures forall i :: 0 <= i < |w| ==> IsWordChar(w[i])
    ensures |w| < |s| ==> !IsWordChar(s[|w|])
  {
    if s != [] && IsWordChar(s[0]) then [s[0]] + WordRun(s[1..]) else []
  }

  /** The DMARC policy as the analyser reads it. */
  datatype DmarcPolicy = Reject | Quarantine | Monitor | OtherPolicy(value: string) | NoPolicyTag

  /** The captured `p=` value of the leftmost match, compared case-insensitively. */
  function DmarcPolicyOf(record: string): DmarcPolicy {
    match FirstPolicyTag(record)
    case None => NoPolicyTag
    case Some(i) =>
      var v := ToLower(WordRun(record[i + 2..]));
      if v == "reject" then Reject
      else if v == "quarantine" then Quarantine
      else if v == "none" then Monitor
      else OtherPolicy(v)
  }

  /** The policy award in half-points: 25, 15, 5 points, nothing for any other value. */
  function DmarcAward(p: DmarcPolicy): nat {
    match p
    case Reject => 50
    case Quarantine => 30
    case Monitor => 10
    case _ => 0
  }

  /** Each reporting tag found earns 12.5 points. */
  function ReportingAward(record: string): nat {
    (if Includes(record, "rua=") then 25 else 0) + (if Includes(record, "ruf=") then 25 else 0)
  }

  const NoDmarcFinding := "No DMARC record found - Email authentication is incomplete"
  const DmarcFoundFinding := "DMARC record found"
  const NoDmarcLine := "No DMARC record configured"
  const DmarcExistsLine := "DMARC record exists"
  const RejectFinding := "Reject policy - Strong protection against email spoofing"
  const RejectLine := "Strict reject policy"
  const QuarantineFinding := "Quarantine policy - Suspicious emails will be quarantined"
  const QuarantineLine := "Quarantine policy"
  const MonitorFinding := "Monitor-only policy - Consider stricter settings"
  const MonitorLine := "Monitor-only policy"
  const AggregateFinding := "Aggregate reporting is configured"
  const AggregateLine := "Aggregate reporting configured"
  const ForensicFinding := "Forensic reporting is configured"
  const ForensicLine := "Forensic reporting configured"

  /** The finding the policy section reports for each policy; none for any other value or no tag. */
  function DmarcPolicyDetails(p: DmarcPolicy): seq<string> {
    match p
    case Reject => [RejectFinding]
    case Quarantine => [QuarantineFinding]
    case Monitor => [MonitorFinding]
    case _ => []
  }

  /** The score line of each policy: pass, partial and alert as the policy loosens. */
  function DmarcPolicyLines(p: DmarcPolicy): seq<ScoreLine> {
    match p
    case Reject => [Award(Pass, RejectLine, 50)]
    case Quarantine => [Award(Partial, QuarantineLine, 30)]
    case Monitor => [Award(Alert, MonitorLine, 10)]
    case _ => []
  }

  /** The findings of the reporting section: aggregate first, then forensic, each when its tag is found. */
  function ReportingDetails(record: string): seq<string> {
    (if Includes(record, "rua=") then [AggregateFinding] else [])
      + (if Includes(record, "ruf=") then [ForensicFinding] else [])
  }

  /** The score lines of the reporting section, one per finding. */
  function ReportingLines(record: string): seq<ScoreLine> {
    (if Includes(record, "rua=") then [Award(Pass, AggregateLine, 25)] else [])
      + (if Includes(record, "ruf=") then [Award(Pass, ForensicLine, 25)] else [])
  }

  /**
   * A policy is reported by a line exactly when it earns an award, the line
   * announces that award, and the three policies carry three different
   * severities.
   */
  lemma DmarcPolicyLinesAnnounceAward(p: DmarcPolicy, q: DmarcPolicy)
    ensures |DmarcPolicyDetails(p)| == |DmarcPolicyLines(p)| == if DmarcAward(p) > 0 then 1 else 0
    ensures AllAwards(DmarcPolicyLines(p)) && Awarded(DmarcPolicyLines(p)) == DmarcAward(p)
    ensures DmarcAward(p) > 0 && DmarcAward(q) > 0 ==>
      (DmarcPolicyLines(p)[0].severity == DmarcPolicyLines(q)[0].severity <==> p == q)
  {
    PushAward([], Pass, RejectLine, 50);
    PushAward([], Partial, QuarantineLine, 30);
    PushAward([], Alert, MonitorLine, 10);
  }

  /** The reporting lines are one per finding and announce the reporting award. */
  lemma ReportingLinesAnnounceAward(record: string)
    ensures |ReportingDetails(record)| == |ReportingLines(record)| == ReportingAward(record) / 25
    ensures AllAwards(ReportingLines(record)) && Awarded(ReportingLines(record)) == ReportingAward(record)
  {
    var first := if Includes(record, "rua=") then [Award(Pass, AggregateLine, 25)] else [];
    PushAward([], Pass, AggregateLine, 25);
    PushAward(first, Pass, ForensicLine, 25);
  }

  /**
   * The policy section of analyzeDMARC: the leftmost `p=` value, lower-cased,
   * earns its award with one finding and one score line; any other value, or
   * no tag at all, adds nothing.
   */
  method AddDmarcPolicy(r: string, details: seq<string>, scoreLines: seq<ScoreLine>, score: nat)
    returns (details': seq<string>, scoreLines': seq<ScoreLine>, score': nat)
    ensures score' == score + DmarcAward(DmarcPolicyOf(r))
    ensures details' == details + DmarcPolicyDetails(DmarcPolicyOf(r))
    ensures scoreLines' == scoreLines + DmarcPolicyLines(DmarcPolicyOf(r))
    ensures |details'| == |details| + (if DmarcAward(DmarcPolicyOf(r)) > 0 then 1 else 0)
    ensures |scoreLines'| == |scoreLines| + (if DmarcAward(DmarcPolicyOf(r)) > 0 then 1 else 0)
    ensures details'[..|details|] == details && scoreLines'[..|scoreLines|] == scoreLines
    ensures AllAwards(scoreLines) ==> AllAwards(scoreLines')
    ensures Awarded(scoreLines') == Awarded(scoreLines) + DmarcAward(DmarcPolicyOf(r))
  {
    details', scoreLines', score' := details, scoreLines, score;
    var tag := FirstPolicyTag(r);
    if tag.Some? {
      var policy := ToLower(WordRun(r[tag.value + 2..]));
      if policy == "reject" {
        assert DmarcPolicyOf(r) == Reject;
        score' := score' + 50;
        details' := details' + [RejectFinding];
        PushAward(scoreLines', Pass, RejectLine, 50);
        scoreLines' := scoreLines' + [Award(Pass, RejectLine, 50)];
      } else if policy == "quarantine" {
        assert DmarcPolicyOf(r) == Quarantine;
        score' := score' + 30;
        details' := details' + [QuarantineFinding];
        PushAward(scoreLines', Partial, QuarantineLine, 30);
        scoreLines' := scoreLines' + [Award(Partial, QuarantineLine, 30)];
      } else if policy == "none" {
        assert DmarcPolicyOf(r) == Monitor;
        score' := score' + 10;
        details' := details' + [MonitorFinding];
        PushAward(scoreLines', Alert, MonitorLine, 10);
        scoreLines' := scoreLines' + [Award(Alert, MonitorLine, 10)];
      } else {
        assert DmarcPolicyOf(r) == OtherPolicy(policy);
      }
    } else {
      assert DmarcPolicyOf(r) == NoPolicyTag;
    }
  }

  /**
   * The reporting section of analyzeDMARC: a `rua=` tag and a `ruf=` tag, found
   * anywhere in the record, each earn their award with one finding and one line.
   */
  method AddDmarcReporting(r: string, details: seq<string>, scoreLines: seq<ScoreLine>, score: nat)
    returns (details': seq<string>, scoreLines': seq<ScoreLine>, score': nat)
    ensures score' == score + ReportingAward(r)
    ensures details' == details + ReportingDetails(r)
    ensures scoreLines' == scoreLines + ReportingLines(r)
    ensures |details'| == |details| + ReportingAward(r) / 25
    ensures |scoreLines'| == |scoreLines| + ReportingAward(r) / 25
    ensures details'[..|details|] == details && scoreLines'[..|scoreLines|] == scoreLines
    ensures AllAwards(scoreLines) ==> AllAwards(scoreLines')
    ensures Awarded(scoreLines') == Awarded(scoreLines) + ReportingAward(r)
  {
    details', scoreLines', score' := details, scoreLines, score;
    if Includes(r, "rua=") {
      score' := score' + 25;
      details' := details' + [AggregateFinding];
      PushAward(scoreLines', Pass, AggregateLine, 25);
      scoreLines' := scoreLines' + [Award(Pass, AggregateLine, 25)];
    }
    if Includes(r, "ruf=") {
      score' := score' + 25;
      details' := details' + [ForensicFinding];
      PushAward(scoreLines', Pass, ForensicLine, 25);
      scoreLines' := scoreLines' + [Award(Pass, ForensicLine, 25)];
    }
  }

  /** The score of analyzeDMARC in half-points: nothing without a record, else the base, policy and reporting awards. */
  function DmarcScoreOf(record: Option<string>): nat {
    if Truthy(record) then 50 + DmarcAward(DmarcPolicyOf(record.value)) + ReportingAward(record.value) else 0
  }

  /** The findings of analyzeDMARC: the absence, or the presence, the policy's finding and the reporting findings. */
  function DmarcDetailsOf(record: Option<string>): seq<string> {
    if Truthy(record) then
      [DmarcFoundFinding] + DmarcPolicyDetails(DmarcPolicyOf(record.value)) + ReportingDetails(record.value)
    else [NoDmarcFinding]
  }

  /** The score lines of analyzeDMARC, in the order of the findings. */
  function DmarcLinesOf(record: Option<string>): seq<ScoreLine> {
    if Truthy(record) then
      [Award(Pass, DmarcExistsLine, 50)] + DmarcPolicyLines(DmarcPolicyOf(record.value)) + ReportingLines(record.value)
    else [Award(Fail, NoDmarcLine, 0)]
  }

  /**
   * analyzeDMARC: an absent record scores nothing and says so once; a present
   * one earns the base award, the award of its policy and independent awards
   * for aggregate and forensic reporting, each announced by one score line.
   */
  method AnalyzeDmarc(record: Option<string>) returns (a: AuthAnalysis)
    ensures a == AuthAnalysis(DmarcDetailsOf(record), DmarcScoreOf(record), DmarcLinesOf(record))
    ensures |a.details| == |a.scoreLines| >= 1
    ensures !Truthy(record) ==> a.details == [NoDmarcFinding] && a.score == 0
    ensures !Truthy(record) ==> a.scoreLines == [Award(Fail, NoDmarcLine, 0)]
    ensures Truthy(record) ==>
      a.score == 50 + DmarcAward(DmarcPolicyOf(record.value)) + ReportingAward(record.value)
    ensures Truthy(record) ==>
      a.details[0] == DmarcFoundFinding && a.scoreLines[0] == Award(Pass, DmarcExistsLine, 50)
    ensures Truthy(record) ==>
      |a.scoreLines| == 1 + (if DmarcAward(DmarcPolicyOf(record.value)) > 0 then 1 else 0)
                            + ReportingAward(record.value) / 25
    ensures a.score == 0 <==> !Truthy(record)
    ensures a.score <= 150
    ensures AllAwards(a.scoreLines) && Awarded(a.scoreLines) == a.score
  {
    var details: seq<string> := [];
    var scoreLines: seq<ScoreLine> := [];
    var score: nat := 0;

    if !Truthy(record) {
      details := details + [NoDmarcFinding];
      PushAward(scoreLines, Fail, NoDmarcLine, 0);
      scoreLines := scoreLines + [Award(Fail, NoDmarcLine, 0)];
      assert details == [NoDmarcFinding];
      return AuthAnalysis(details, score, scoreLines);
    }
    var r := record.value;

    score := score + 50;
    details := details + [DmarcFoundFinding];
    PushAward(scoreLines, Pass, DmarcExistsLine, 50);
    scoreLines := scoreLines + [Award(Pass, DmarcExistsLine, 50)];
    assert details == [DmarcFoundFinding] && scoreLines == [Award(Pass, DmarcExistsLine, 50)];

    details, scoreLines, score := AddDmarcPolicy(r, details, scoreLines, score);
    details, scoreLines, score := AddDmarcReporting(r, details, scoreLines, score);
    assert details == DmarcDetailsOf(record) && scoreLines == DmarcLinesOf(record);
    DmarcLinesAnnounceScore(record);
    return AuthAnalysis(details, score, scoreLines);
  }

  /**
   * For a present record the findings and the lines run in parallel, open
   * with the presence entries, and the lines announce the whole score.
   */
  lemma DmarcLinesAnnounceScore(record: Option<string>)
    requires Truthy(record)
    ensures var p, r := DmarcPolicyOf(record.value), record.value;
      && |DmarcDetailsOf(record)| == |DmarcLinesOf(record)| == 1 + |DmarcPolicyLines(p)| + ReportingAward(r) / 25
      && DmarcDetailsOf(record)[0] == DmarcFoundFinding && DmarcLinesOf(record)[0] == Award(Pass, DmarcExistsLine, 50)
      && AllAwards(DmarcLinesOf(record)) && Awarded(DmarcLinesOf(record)) == DmarcScoreOf(record)
  {
    var p, r := DmarcPolicyOf(record.value), record.value;
    DmarcPolicyLinesAnnounceAward(p, p);
    ReportingLinesAnnounceAward(r);
    AwardedAppend([Award(Pass, DmarcExistsLine, 50)], DmarcPolicyLines(p));
    AwardedAppend([Award(Pass, DmarcExistsLine, 50)] + DmarcPolicyLines(p), ReportingLines(r));
    PushAward([], Pass, DmarcExistsLine, 50);
  }

  /**
   * A present DMARC record scores between 25 and 75 points in steps of 2.5:
   * in half-points, a multiple of 5 from 50 to 150.
   */
  lemma DmarcScoreSteps(record: string)
    ensures var s := 50 + DmarcAward(DmarcPolicyOf(record)) + ReportingAward(record);
      50 <= s <= 150 && s % 5 == 0
  {
  }

  /** The word run stops at the first character that is not a word character. */
  lemma {:induction false} WordRunStops(w: string, t: string)
    requires forall i :: 0 <= i < |w| ==> IsWordChar(w[i])
    requires t == [] || !IsWordChar(t[0])
    ensures WordRun(w + t) == w
  {
    if w != [] {
      WordRunStops(w[1..], t);
      assert (w + t)[1..] == w[1..] + t;
    }
  }

  /**
   * With no `p` before it, the first "p=" followed by a word is the policy
   * tag, and its value is that whole word.
   */
  lemma PolicyAfterPrefix(pre: string, w: string, t: string)
    requires 'p' !in pre
    requires w != [] && forall i :: 0 <= i < |w| ==> IsWordChar(w[i])
    requires t == [] || !IsWordChar(t[0])
    ensures FirstPolicyTag(pre + ("p=" + (w + t))) == Some(|pre|)
    ensures WordRun((pre + ("p=" + (w + t)))[|pre| + 2..]) == w
  {
    var u := w + t;
    var v := "p=" + u;
    var s := pre + v;
    assert v[0] == 'p' && v[1] == '=' && v[2] == w[0];
    assert s[|pre|..] == v && v[2..] == u;
    assert PolicyTagAt(s, |pre|);
    forall j | 0 <= j < |pre| ensures !PolicyTagAt(s, j) {
      assert s[j] == pre[j];
    }
    var r := FirstPolicyTag(s);
    assert r.Some?;
    assert r.value == |pre|;
    WordRunStops(w, t);
  }

  /**
   * The policy regex is not anchored to a tag boundary: in a record whose
   * subdomain policy `sp=` comes first, its value is read as the policy.
   */
  lemma SubdomainPolicyReadFirst()
    ensures DmarcPolicyOf("v=DMARC1; s" + ("p=" + ("none" + "; p=reject"))) == Monitor
  {
    PolicyAfterPrefix("v=DMARC1; s", "none", "; p=reject");
  }

  // ---------------------------------------------------------------------------
  // Combining and record selection

  /**
   * `Math.round((spf + dmarc) / 2)` for scores given in half-points: the
   * nearest whole point to the average, a tie rounding up.
   */
  function TotalScore(spfHalf: int, dmarcHalf: int): (t: int)
    ensures 4 * t - 2 <= spfHalf + dmarcHalf < 4 * t + 2
  {
    (spfHalf + dmarcHalf + 2) / 4
  }

  /** `records[i]` would be returned by the SPF `find`: no earlier record throws or matches. */
  predicate SpfSelectedAt(records: seq<seq<string>>, i: int) {
    && 0 <= i < |records|
    && records[i] != [] && StartsWith(ToLower(records[i][0]), "v=spf1")
    && forall j :: 0 <= j < i ==> records[j] != [] && !StartsWith(ToLower(records[j][0]), "v=spf1")
  }

  /**
   * getSPFRecord's `find` over the TXT records (each a list of chunks): the first
   * record whose first chunk, lower-cased, starts with "v=spf1", joined. A record
   * with no chunks reached before it makes `record[0].toLowerCase()` throw, which
   * the caller's `catch` turns into null.
   */
  function FindSpfRecord(records: seq<seq<string>>): (r: Option<string>)
    ensures r.Some? <==> exists i :: SpfSelectedAt(records, i)
    ensures forall i :: SpfSelectedAt(records, i) ==> r == Some(Join(records[i]))
    ensures r.Some? ==> |r.value| >= 6
  {
    if records == [] then None
    else if records[0] == [] then None
    else if StartsWith(ToLower(records[0][0]), "v=spf1") then
      assert SpfSelectedAt(records, 0);
      Some(Join(records[0]))
    else
      var r := FindSpfRecord(records[1..]);
      assert forall i :: SpfSelectedAt(records[1..], i) <==> SpfSelectedAt(records, i + 1);
      assert !SpfSelectedAt(records, 0);
      r
  }

  /** getSPFRecord: a failed lookup (None) gives null. */
  function SpfRecordFromTxt(lookup: Option<seq<seq<string>>>): Option<string> {
    match lookup
    case None => None
    case Some(records) => FindSpfRecord(records)
  }

  /**
   * getDmarcRecord: the first TXT record at `_dmarc.<domain>`, joined, with no
   * check of its content; a failed lookup or an empty answer (`records[0]`
   * undefined) gives null.
   */
  function DmarcRecordFromTxt(lookup: Option<seq<seq<string>>>): (r: Option<string>)
    ensures r.Some? <==> lookup.Some? && lookup.value != []
    ensures r.Some? ==> r.value == Join(lookup.value[0])
  {
    match lookup
    case None => None
    case Some(records) => if records == [] then None else Some(Join(records[0]))
  }

  /** The name at which the DMARC record is looked up. */
  function DmarcName(domain: string): string {
    "_dmarc." + domain
  }

  /**
   * The email-security route: a missing domain is a 400; otherwise both records
   * are looked up (`resolveTxt` stands for the resolver, None for a failed
   * lookup), analysed and combined.
   */
  method CheckEmailSecurity(domain: Option<string>, resolveTxt: string -> Option<seq<seq<string>>>)
    returns (out: Response<EmailSecurityAnalysis>)
    ensures !Truthy(domain) <==> out == Error(400, "Domain is required")
    ensures out.Ok? ==> out.body.spf.record == SpfRecordFromTxt(resolveTxt(domain.value))
    ensures out.Ok? ==> out.body.dmarc.record == DmarcRecordFromTxt(resolveTxt(DmarcName(domain.value)))
    ensures out.Ok? ==> out.body.spf.recordExists == Truthy(out.body.spf.record) == (out.body.spf.score != 0)
    ensures out.Ok? ==> out.body.dmarc.recordExists == Truthy(out.body.dmarc.record) == (out.body.dmarc.score != 0)
    ensures out.Ok? ==> out.body.spf.score == SpfScoreOf(out.body.spf.record)
    ensures out.Ok? ==> out.body.spf.details == SpfDetailsOf(out.body.spf.record)
    ensures out.Ok? ==> out.body.spf.scoreDetails == RenderAll(SpfLinesOf(out.body.spf.record))
    ensures out.Ok? ==> out.body.dmarc.score == DmarcScoreOf(out.body.dmarc.record)
    ensures out.Ok? ==> out.body.dmarc.details == DmarcDetailsOf(out.body.dmarc.record)
    ensures out.Ok? ==> out.body.dmarc.scoreDetails == RenderAll(DmarcLinesOf(out.body.dmarc.record))
    ensures out.Ok? ==> out.body.spf.score <= 100 && out.body.dmarc.score <= 150
    ensures out.Ok? ==> 4 * out.body.totalScore - 2 <= out.body.spf.score + out.body.dmarc.score < 4 * out.body.totalScore + 2
    ensures out.Ok? ==> 0 <= out.body.totalScore <= 63
    ensures out.Ok? ==> AllMarked(out.body.spf.scoreDetails) && SumDeltas(out.body.spf.scoreDetails) == out.body.spf.score
    ensures out.Ok? ==> AllMarked(out.body.dmarc.scoreDetails) && SumDeltas(out.body.dmarc.scoreDetails) == out.body.dmarc.score
  {
    if !Truthy(domain) {
      return Error(400, "Domain is required");
    }
    var spfRecord := SpfRecordFromTxt(resolveTxt(domain.value));
    var dmarcRecord := DmarcRecordFromTxt(resolveTxt(DmarcName(domain.value)));

    var spf := AnalyzeSpf(spfRecord);
    var dmarc := AnalyzeDmarc(dmarcRecord);
    AnnouncedAwards(spf.scoreLines);
    AnnouncedAwards(dmarc.scoreLines);

    var analysis := EmailSecurityAnalysis(
      RecordReport(Truthy(spfRecord), spfRecord, spf.details, spf.score, RenderAll(spf.scoreLines)),
      RecordReport(Truthy(dmarcRecord), dmarcRecord, dmarc.details, dmarc.score, RenderAll(dmarc.scoreLines)),
      TotalScore(spf.score, dmarc.score));
    return Ok(analysis);
  }
}
