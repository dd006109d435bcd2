/**
 * The MX topology scorer (app/api/mx-check/route.ts): the flags derived from
 * the resolved MX records, the human-readable `details`, and the four-axis
 * score of 25 points per axis with its `scoreDetails` breakdown.
 *
 * MX scores are whole points; their score lines carry half-points (twice the
 * points) so that they share the rendering of the email-security scorer.
 */
module MxCheck {
  import opened Js
  import opened ScoreLines
  import opened Http

  datatype MxRecord = MxRecord(priority: int, exchange: string)

  /** The analysis before scoring: the flags, the records and the findings. */
  datatype MxFacts = MxFacts(
    hasMxRecords: bool,
    hasMultipleMx: bool,
    hasDifferentWeights: bool,
    onSameDomain: bool,
    records: seq<MxRecord>,
    details: seq<string>)

  /** The route's answer: the analysis with its score and score breakdown. */
  datatype MxAnalysis = MxAnalysis(
    hasMxRecords: bool,
    hasMultipleMx: bool,
    hasDifferentWeights: bool,
    onSameDomain: bool,
    records: seq<MxRecord>,
    details: seq<string>,
    score: nat,
    scoreDetails: seq<string>)

  // ---------------------------------------------------------------------------
  // isSubdomainOf

  /**
   * isSubdomainOf: after one trailing dot is removed from each name, the host
   * ends with the domain, or with the domain preceded by a dot.
   */
  function IsSubdomainOf(mxHost: string, domain: string): bool {
    var h := StripTrailingDot(mxHost);
    var d := StripTrailingDot(domain);
    EndsWith(h, d) || EndsWith(h, "." + d)
  }

  /** The dotted test adds nothing: ending with ".d" implies ending with "d". */
  lemma DottedSuffixIsSuffix(h: string, d: string)
    ensures EndsWith(h, "." + d) ==> EndsWith(h, d)
  {
    if EndsWith(h, "." + d) {
      assert h[|h| - |d|..] == h[|h| - |d| - 1..][1..];
    }
  }

  /** The test is a bare suffix test: it holds exactly when the stripped host ends with the stripped domain. */
  lemma SubdomainIsSuffix(mxHost: string, domain: string)
    ensures IsSubdomainOf(mxHost, domain) <==> EndsWith(StripTrailingDot(mxHost), StripTrailingDot(domain))
  {
    DottedSuffixIsSuffix(StripTrailingDot(mxHost), StripTrailingDot(domain));
  }

  /** Any host name that ends with the domain's text passes, whatever precedes it. */
  lemma {:induction false} AnyPrefixPasses(p: string, domain: string)
    ensures IsSubdomainOf(p + domain, domain)
  {
    var h := p + domain;
    if domain != [] && domain[|domain| - 1] == '.' {
      var d := domain[..|domain| - 1];
      assert StripTrailingDot(h) == p + d;
      assert (p + d)[|p + d| - |d|..] == d;
    } else if domain != [] {
      assert StripTrailingDot(h) == h;
      assert h[|h| - |domain|..] == domain;
    }
  }

  /** So a look-alike name with no dot before the domain counts as on the domain. */
  lemma LookAlikeCounts()
    ensures IsSubdomainOf("badexample.com", "example.com")
  {
    AnyPrefixPasses("bad", "example.com");
    assert "bad" + "example.com" == "badexample.com";
  }

  // ---------------------------------------------------------------------------
  // Flags

  /** The distinct priorities of the records (`new Set(records.map(r => r.priority))`). */
  function Priorities(rs: seq<MxRecord>): set<int> {
    set i | 0 <= i < |rs| :: rs[i].priority
  }

  /** Two records whose priorities differ. */
  predicate HasTwoPriorities(rs: seq<MxRecord>) {
    exists i, j :: 0 <= i < |rs| && 0 <= j < |rs| && rs[i].priority != rs[j].priority
  }

  /**
   * The Set of priorities has more than one element exactly when two records
   * have different priorities, which needs at least two records.
   */
  lemma DistinctPriorities(rs: seq<MxRecord>)
    ensures |Priorities(rs)| > 1 <==> HasTwoPriorities(rs)
    ensures |Priorities(rs)| > 1 ==> |rs| >= 2
  {
    var ps := Priorities(rs);
    if HasTwoPriorities(rs) {
      var i, j :| 0 <= i < |rs| && 0 <= j < |rs| && rs[i].priority != rs[j].priority;
      var a, b := rs[i].priority, rs[j].priority;
      assert a in ps && b in ps;
      assert b in ps - {a};
      assert |ps| == |ps - {a}| + 1;
    } else if rs == [] {
      assert ps == {};
    } else {
      var p := rs[0].priority;
      forall x | x in ps ensures x == p {
        var k :| 0 <= k < |rs| && rs[k].priority == x;
        assert rs[0].priority == rs[k].priority;
      }
      assert ps == {p};
    }
  }

  /** `records.every(r => isSubdomainOf(r.exchange, domain))` */
  predicate AllOnDomain(rs: seq<MxRecord>, domain: string) {
    forall i :: 0 <= i < |rs| ==> IsSubdomainOf(rs[i].exchange, domain)
  }

  // ---------------------------------------------------------------------------
  // calculateScore

  const MxExistLine := "MX records exist"
  const NoMxLine := "No MX records found"
  const NoMxNote := "No MX records: Score 0"
  const RedundancyLine := "Multiple MX records provide redundancy"
  const NoRedundancyLine := "Single MX record - no redundancy"
  const WeightsLine := "Different priority weights for failover"
  const NoWeightsLine := "Multiple MX records but no priority differentiation"
  const SelfHostedLine := "Self-hosted mail servers"
  const ProviderLine := "Managed by professional email provider"

  /** The redundancy line: an award for several records, a fail line worth nothing for one. */
  function RedundancyLineOf(hasMultipleMx: bool): ScoreLine {
    if hasMultipleMx then Award(Pass, RedundancyLine, 50) else Award(Fail, NoRedundancyLine, 0)
  }

  /** The priority lines: an award for distinct priorities, a fail line for several records of one, else none. */
  function PriorityLinesOf(hasMultipleMx: bool, hasDifferentWeights: bool): seq<ScoreLine> {
    if hasDifferentWeights then [Award(Pass, WeightsLine, 50)]
    else if hasMultipleMx then [Award(Fail, NoWeightsLine, 0)]
    else []
  }

  /** The domain line: an award either way, worded by where the servers are. */
  function DomainLineOf(onSameDomain: bool): ScoreLine {
    Award(Pass, if onSameDomain then SelfHostedLine else ProviderLine, 50)
  }

  /** The score lines of calculateScore: the single note without records, else one line per axis that reports. */
  function MxLinesOf(f: MxFacts): seq<ScoreLine> {
    if !f.hasMxRecords then [Note(NoMxNote)]
    else
      [Award(Pass, MxExistLine, 50), RedundancyLineOf(f.hasMultipleMx)]
      + PriorityLinesOf(f.hasMultipleMx, f.hasDifferentWeights) + [DomainLineOf(f.onSameDomain)]
  }

  /**
   * A line passes exactly when it pays: the redundancy and priority lines
   * are "✓" with 25 points when their axis holds and "✗" with none otherwise.
   */
  lemma AxisLinesPassWhenPaid(hasMultipleMx: bool, hasDifferentWeights: bool)
    ensures RedundancyLineOf(hasMultipleMx).severity == Pass <==> RedundancyLineOf(hasMultipleMx).half == 50
    ensures RedundancyLineOf(hasMultipleMx).half == 50 <==> hasMultipleMx
    ensures forall i :: 0 <= i < |PriorityLinesOf(hasMultipleMx, hasDifferentWeights)| ==>
      var l := PriorityLinesOf(hasMultipleMx, hasDifferentWeights)[i];
      (l.severity == Pass <==> hasDifferentWeights) && (l.half == if hasDifferentWeights then 50 else 0)
    ensures AllAwards(PriorityLinesOf(hasMultipleMx, hasDifferentWeights))
    ensures Awarded(PriorityLinesOf(hasMultipleMx, hasDifferentWeights)) == if hasDifferentWeights then 50 else 0
  {
    PushAward([], Pass, WeightsLine, 50);
    PushAward([], Fail, NoWeightsLine, 0);
  }

  /**
   * The redundancy axis of calculateScore: 25 points and a "✓" line for
   * several records, a "✗ (+0)" line otherwise.
   */
  method AddRedundancy(f: MxFacts, score: nat, scoreLines: seq<ScoreLine>)
    returns (score': nat, scoreLines': seq<ScoreLine>)
    ensures score' == score + (if f.hasMultipleMx then 25 else 0)
    ensures scoreLines' == scoreLines + [RedundancyLineOf(f.hasMultipleMx)]
    ensures |scoreLines'| == |scoreLines| + 1 && scoreLines'[..|scoreLines|] == scoreLines
    ensures AllAwards(scoreLines) ==> AllAwards(scoreLines')
    ensures Awarded(scoreLines') == Awarded(scoreLines) + (if f.hasMultipleMx then 50 else 0)
  {
    score', scoreLines' := score, scoreLines;
    if f.hasMultipleMx {
      score' := score' + 25;
      PushAward(scoreLines', Pass, RedundancyLine, 50);
      scoreLines' := scoreLines' + [Award(Pass, RedundancyLine, 50)];
    } else {
      PushAward(scoreLines', Fail, NoRedundancyLine, 0);
      scoreLines' := scoreLines' + [Award(Fail, NoRedundancyLine, 0)];
    }
  }

  /**
   * The priority axis of calculateScore: 25 points and a "✓" line for
   * distinct priorities; a "✗ (+0)" line for several records of one priority;
   * no line at all otherwise.
   */
  method AddPriorityWeights(f: MxFacts, score: nat, scoreLines: seq<ScoreLine>)
    returns (score': nat, scoreLines': seq<ScoreLine>)
    ensures score' == score + (if f.hasDifferentWeights then 25 else 0)
    ensures scoreLines' == scoreLines + PriorityLinesOf(f.hasMultipleMx, f.hasDifferentWeights)
    ensures |scoreLines'| == |scoreLines| + (if f.hasDifferentWeights || f.hasMultipleMx then 1 else 0)
    ensures scoreLines'[..|scoreLines|] == scoreLines
    ensures AllAwards(scoreLines) ==> AllAwards(scoreLines')
    ensures Awarded(scoreLines') == Awarded(scoreLines) + (if f.hasDifferentWeights then 50 else 0)
  {
    score', scoreLines' := score, scoreLines;
    if f.hasDifferentWeights {
      score' := score' + 25;
      PushAward(scoreLines', Pass, WeightsLine, 50);
      scoreLines' := scoreLines' + [Award(Pass, WeightsLine, 50)];
    } else if f.hasMultipleMx {
      PushAward(scoreLines', Fail, NoWeightsLine, 0);
      scoreLines' := scoreLines' + [Award(Fail, NoWeightsLine, 0)];
    }
  }

  /**
   * The domain axis of calculateScore: 25 points either way; only the wording
   * of the line depends on whether the servers are on the domain.
   */
  method AddDomainManagement(f: MxFacts, score: nat, scoreLines: seq<ScoreLine>)
    returns (score': nat, scoreLines': seq<ScoreLine>)
    ensures score' == score + 25
    ensures scoreLines' == scoreLines + [DomainLineOf(f.onSameDomain)]
    ensures AllAwards(scoreLines) ==> AllAwards(scoreLines')
    ensures Awarded(scoreLines') == Awarded(scoreLines) + 50
  {
    score', scoreLines' := score, scoreLines;
    if f.onSameDomain {
      score' := score' + 25;
      PushAward(scoreLines', Pass, SelfHostedLine, 50);
      scoreLines' := scoreLines' + [Award(Pass, SelfHostedLine, 50)];
    } else {
      score' := score' + 25;
      PushAward(scoreLines', Pass, ProviderLine, 50);
      scoreLines' := scoreLines' + [Award(Pass, ProviderLine, 50)];
    }
  }

  /**
   * calculateScore: no records scores 0 with the single note that says so;
   * otherwise 25 points for existence, 25 for several records, 25 for distinct
   * priorities and 25 for the domain axis, which pays either way. Every award
   * is announced by one score line carrying the same points.
   */
  method CalculateScore(f: MxFacts) returns (score: nat, scoreLines: seq<ScoreLine>)
    ensures scoreLines == MxLinesOf(f)
    ensures !f.hasMxRecords ==> score == 0 && scoreLines == [Note(NoMxNote)]
    ensures f.hasMxRecords ==>
      score == 50 + (if f.hasMultipleMx then 25 else 0) + (if f.hasDifferentWeights then 25 else 0)
    ensures f.hasMxRecords ==>
      |scoreLines| == if f.hasMultipleMx || f.hasDifferentWeights then 4 else 3
    ensures f.hasMxRecords ==> scoreLines[0] == Award(Pass, MxExistLine, 50)
    ensures f.hasMxRecords ==>
      scoreLines[|scoreLines| - 1] == Award(Pass, if f.onSameDomain then SelfHostedLine else ProviderLine, 50)
    ensures f.hasMxRecords ==> AllAwards(scoreLines) && Awarded(scoreLines) == 2 * score
  {
    score := 0;
    scoreLines := [];

    if f.hasMxRecords {
      score := score + 25;
      PushAward(scoreLines, Pass, MxExistLine, 50);
      scoreLines := scoreLines + [Award(Pass, MxExistLine, 50)];
    } else {
      scoreLines := scoreLines + [Award(Fail, NoMxLine, 0)];
      return 0, [Note(NoMxNote)];
    }

    score, scoreLines := AddRedundancy(f, score, scoreLines);
    score, scoreLines := AddPriorityWeights(f, score, scoreLines);
    assert scoreLines[0] == Award(Pass, MxExistLine, 50);
    score, scoreLines := AddDomainManagement(f, score, scoreLines);
  }

  // ---------------------------------------------------------------------------
  // The route

  const NoMxFinding := "No MX records found"
  const RedundancyFinding := "Multiple MX records provide redundancy"
  const NoRedundancyFinding := "Only one MX record found - no mail server redundancy"
  const WeightsFinding := "MX records have different priority weights - good for failover"
  const SamePriorityFinding := "Warning: Multiple MX records with same priority - no clear failover order"

  function FoundFinding(n: nat): string {
    "Found " + Decimal(n) + " MX record(s)"
  }

  function SameDomainFinding(domain: string): string {
    "All MX records are subdomains of " + domain
  }

  function ExternalFinding(domain: string): string {
    "MX records are handled by external mail providers (not on " + domain + ")"
  }

  /** The records the route analyses: a failed lookup (None) is treated as no records. */
  function ResolvedOrEmpty(lookup: Option<seq<MxRecord>>): seq<MxRecord> {
    match lookup
    case None => []
    case Some(rs) => rs
  }

  /** The route's findings as a list, in the order they are pushed. */
  function FindingsOf(rs: seq<MxRecord>, domain: string, hasDifferentWeights: bool, onSameDomain: bool): seq<string> {
    if rs == [] then [NoMxFinding]
    else
      var count := [FoundFinding(|rs|)];
      var redundancy := count + [if |rs| > 1 then RedundancyFinding else NoRedundancyFinding];
      var priority := redundancy + (if hasDifferentWeights then [WeightsFinding] else if |rs| > 1 then [SamePriorityFinding] else []);
      priority + [if onSameDomain then SameDomainFinding(domain) else ExternalFinding(domain)]
  }

  /**
   * The route's findings, pushed one by one from the flags: a count, a
   * redundancy line, a priority line only when there are several records,
   * and a domain line.
   */
  method Describe(rs: seq<MxRecord>, domain: string, hasMultipleMx: bool, hasDifferentWeights: bool, onSameDomain: bool)
    returns (details: seq<string>)
    requires hasMultipleMx <==> |rs| >= 2
    requires hasDifferentWeights ==> |rs| >= 2
    ensures details == FindingsOf(rs, domain, hasDifferentWeights, onSameDomain)
  {
    details := [];
    if rs == [] {
      details := details + [NoMxFinding];
      assert details == [NoMxFinding];
      return;
    }
    details := details + [FoundFinding(|rs|)];

    if hasMultipleMx {
      details := details + [RedundancyFinding];
    } else {
      details := details + [NoRedundancyFinding];
    }
    ghost var redundancy := details;
    assert redundancy == [FoundFinding(|rs|)] + [if |rs| > 1 then RedundancyFinding else NoRedundancyFinding];

    if hasDifferentWeights {
      details := details + [WeightsFinding];
    } else if |rs| > 1 {
      details := details + [SamePriorityFinding];
    }
    ghost var priority := details;
    assert priority == redundancy + (if hasDifferentWeights then [WeightsFinding] else if |rs| > 1 then [SamePriorityFinding] else []);

    if onSameDomain {
      details := details + [SameDomainFinding(domain)];
    } else {
      details := details + [ExternalFinding(domain)];
    }
    assert details == priority + [if onSameDomain then SameDomainFinding(domain) else ExternalFinding(domain)];
  }

  /**
   * An empty list has the single finding that says so; the findings of a
   * non-empty list are four for several records and three for one, in their
   * fixed order.
   */
  lemma FindingsInOrder(rs: seq<MxRecord>, domain: string, hasDifferentWeights: bool, onSameDomain: bool)
    requires hasDifferentWeights ==> |rs| >= 2
    ensures rs == [] ==> FindingsOf(rs, domain, hasDifferentWeights, onSameDomain) == [NoMxFinding]
    ensures rs != [] ==> var f := FindingsOf(rs, domain, hasDifferentWeights, onSameDomain);
      && |f| == (if |rs| > 1 then 4 else 3)
      && f[0] == FoundFinding(|rs|)
      && f[1] == (if |rs| > 1 then RedundancyFinding else NoRedundancyFinding)
      && (|rs| > 1 ==> f[2] == if hasDifferentWeights then WeightsFinding else SamePriorityFinding)
      && f[|f| - 1] == if onSameDomain then SameDomainFinding(domain) else ExternalFinding(domain)
  {
    if rs != [] {
      var found := FoundFinding(|rs|);
      var redundancy := if |rs| > 1 then RedundancyFinding else NoRedundancyFinding;
      var place := if onSameDomain then SameDomainFinding(domain) else ExternalFinding(domain);
      if |rs| > 1 {
        var priority := if hasDifferentWeights then WeightsFinding else SamePriorityFinding;
        assert FindingsOf(rs, domain, hasDifferentWeights, onSameDomain) == [found, redundancy, priority, place];
      } else {
        assert FindingsOf(rs, domain, hasDifferentWeights, onSameDomain) == [found, redundancy, place];
      }
    }
  }

  /**
   * The MX route: a missing domain is a 400; otherwise the records are looked
   * up (`resolveMx` stands for the resolver, None for a failed lookup), the
   * flags are derived, the findings written and the score computed.
   */
  method CheckMx(domain: Option<string>, resolveMx: string -> Option<seq<MxRecord>>)
    returns (out: Response<MxAnalysis>)
    ensures !Truthy(domain) <==> out == Error(400, "Domain is required")
    ensures out.Ok? ==> out.body.records == ResolvedOrEmpty(resolveMx(domain.value))
    ensures out.Ok? ==> out.body.hasMxRecords == (|out.body.records| > 0)
    ensures out.Ok? ==> out.body.hasMultipleMx == (|out.body.records| >= 2)
    ensures out.Ok? ==> out.body.hasDifferentWeights == HasTwoPriorities(out.body.records)
    ensures out.Ok? ==> out.body.hasDifferentWeights ==> out.body.hasMultipleMx
    ensures out.Ok? ==>
      out.body.onSameDomain == (out.body.hasMxRecords && AllOnDomain(out.body.records, domain.value))
    ensures out.Ok? ==> out.body.details == FindingsOf(out.body.records, domain.value, out.body.hasDifferentWeights, out.body.onSameDomain)
    ensures out.Ok? && !out.body.hasMxRecords ==> out.body.score == 0
    ensures out.Ok? && out.body.hasMxRecords ==>
      out.body.score == 50 + (if out.body.hasMultipleMx then 25 else 0) + (if out.body.hasDifferentWeights then 25 else 0)
    ensures out.Ok? ==> out.body.scoreDetails == RenderAll(MxLinesOf(MxFacts(out.body.hasMxRecords, out.body.hasMultipleMx,
      out.body.hasDifferentWeights, out.body.onSameDomain, out.body.records, out.body.details)))
    ensures out.Ok? ==> (out.body.score == 0 <==> !out.body.hasMxRecords)
    ensures out.Ok? ==> (out.body.score == 0 || out.body.score == 50 || out.body.score == 75 || out.body.score == 100)
    ensures out.Ok? && !out.body.hasMxRecords ==>
      out.body.details == [NoMxFinding] && out.body.scoreDetails == [NoMxNote]
    ensures out.Ok? && out.body.hasMxRecords ==>
      |out.body.scoreDetails| == |out.body.details| == if out.body.hasMultipleMx then 4 else 3
    ensures out.Ok? && out.body.hasMxRecords ==>
      AllMarked(out.body.scoreDetails) && SumDeltas(out.body.scoreDetails) == 2 * out.body.score
  {
    if !Truthy(domain) {
      return Error(400, "Domain is required");
    }
    var d := domain.value;
    var rs := ResolvedOrEmpty(resolveMx(d));

    var hasMxRecords := |rs| > 0;
    var hasMultipleMx := |rs| >= 2;
    var hasDifferentWeights := |Priorities(rs)| > 1;
    DistinctPriorities(rs);
    var onSameDomain := false;
    if |rs| > 0 {
      onSameDomain := AllOnDomain(rs, d);
    }

    var details := Describe(rs, d, hasMultipleMx, hasDifferentWeights, onSameDomain);
    FindingsInOrder(rs, d, hasDifferentWeights, onSameDomain);
    var facts := MxFacts(hasMxRecords, hasMultipleMx, hasDifferentWeights, onSameDomain, rs, details);

    var score, scoreLines := CalculateScore(facts);
    var scoreDetails := RenderAll(scoreLines);
    if hasMxRecords {
      AnnouncedAwards(scoreLines);
    }
    return Ok(MxAnalysis(hasMxRecords, hasMultipleMx, hasDifferentWeights, onSameDomain, rs, details, score, scoreDetails));
  }
}
