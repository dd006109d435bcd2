/**
 * The DNS-over-HTTPS answer normalisers (app/utils/dns.ts): MX answers are
 * parsed from their "priority exchange" text and sorted by priority; SPF and
 * DMARC answers are chosen by a case-insensitive substring test and have their
 * surrounding quotes removed. The HTTP query itself is a parameter: `query(name,
 * type)` is the decoded response, or None when the fetch or the decoding failed.
 */
module DnsAnswers {
  import opened Js
  import opened MxCheck

  /** One entry of the `Answer` array of a DNS JSON response. */
  datatype Answer = Answer(name: string, rtype: int, ttl: int, data: string)

  /** A DNS JSON response; `answer` is None when the `Answer` field is absent. */
  datatype DnsResponse = DnsResponse(status: int, answer: Option<seq<Answer>>)

  /** `response?.Answer`: the answers, or None when the query failed or carried none. */
  function AnswersOf(response: Option<DnsResponse>): Option<seq<Answer>> {
    match response
    case None => None
    case Some(r) => r.answer
  }

  // ---------------------------------------------------------------------------
  // MX answers

  /** The longest prefix of decimal digits. */
  function LeadingDigits(s: string): (d: string)
    ensures StartsWith(s, d) && AllDigits(d)
    ensures |d| < |s| ==> !IsDigit(s[|d|])
  {
    if s != [] && IsDigit(s[0]) then [s[0]] + LeadingDigits(s[1..]) else []
  }

  /** A "0x" or "0X" prefix, which makes `parseInt` read the rest in base 16. */
  predicate HexPrefixed(s: string) {
    |s| >= 2 && s[0] == '0' && (s[1] == 'x' || s[1] == 'X')
  }

  /**
   * `parseInt(s)` for a token that starts with a decimal digit and has no hex
   * prefix: the value of its leading run of digits (whatever follows is ignored).
   */
  function ParseInt(s: string): (n: nat)
    requires s != [] && IsDigit(s[0]) && !HexPrefixed(s)
  {
    DigitsValue(LeadingDigits(s))
  }

  /**
   * The token `parseInt` is applied to starts with a decimal digit and is not
   * hex-prefixed, so it reads as a decimal number and not NaN.
   */
  predicate NumericPriority(data: string) {
    var parts := Split(data, ' ');
    parts[0] != [] && IsDigit(parts[0][0]) && !HexPrefixed(parts[0])
  }

  /**
   * One answer of the `map`: the text split on spaces, the first token read as
   * the priority and the second, less one trailing dot, as the exchange. An
   * answer with no second token makes `exchange.replace` throw: None.
   */
  function ParseMxAnswer(data: string): (r: Option<MxRecord>)
    requires NumericPriority(data)
    ensures r.Some? <==> ' ' in data
    ensures r.Some? ==> ' ' !in r.value.exchange
  {
    var parts := Split(data, ' ');
    if |parts| < 2 then
      SplitJoin(data, ' ');
      None
    else
      SplitJoin(data, ' ');
      SplitHasSeparator(parts, ' ');
      StripDotKeepsOut(parts[1], ' ');
      Some(MxRecord(ParseInt(parts[0]), StripTrailingDot(parts[1])))
  }

  /** Joining two or more parts puts the separator in the text. */
  lemma SplitHasSeparator(parts: seq<string>, sep: char)
    requires |parts| >= 2
    ensures sep in JoinWith(parts, sep)
  {
    var rest := JoinWith(parts[1..], sep);
    assert JoinWith(parts, sep) == parts[0] + [sep] + rest;
    assert JoinWith(parts, sep)[|parts[0]|] == sep;
  }

  /** Removing a trailing dot adds no character. */
  lemma StripDotKeepsOut(s: string, c: char)
    requires c !in s
    ensures c !in StripTrailingDot(s)
  {
    if s != [] && s[|s| - 1] == '.' {
      assert forall k :: 0 <= k < |s| - 1 ==> s[..|s| - 1][k] == s[k];
    }
  }

  /** A text with one space and no other splits into exactly its two sides. */
  lemma {:induction false} SplitTwo(a: string, b: string)
    requires ' ' !in a && ' ' !in b
    ensures Split(a + " " + b, ' ') == [a, b]
  {
    var s := a + " " + b;
    assert s[|a|] == ' ';
    assert forall j :: 0 <= j < |a| ==> s[j] == a[j];
    assert IndexOf(s, ' ') == Some(|a|);
    assert s[..|a|] == a;
    assert s[|a| + 1..] == b;
    assert IndexOf(b, ' ') == None;
  }

  /**
   * Parsing inverts the presentation of an MX record: the priority written in
   * decimal, a space, and the fully qualified exchange with its final dot.
   */
  lemma ParseMxInvertsPresentation(priority: nat, exchange: string)
    requires ' ' !in exchange
    ensures NumericPriority(Decimal(priority) + " " + exchange + ".")
    ensures ParseMxAnswer(Decimal(priority) + " " + exchange + ".") == Some(MxRecord(priority, exchange))
  {
    var p := Decimal(priority);
    var x := exchange + ".";
    assert ' ' !in p by {
      assert forall k :: 0 <= k < |p| ==> IsDigit(p[k]);
    }
    assert ' ' !in x by {
      assert forall k :: 0 <= k < |exchange| ==> x[k] == exchange[k];
    }
    assert p + " " + exchange + "." == p + " " + x;
    SplitTwo(p, x);
    assert LeadingDigits(p) == p by {
      LeadingDigitsOfDigits(p);
    }
    DecimalRoundTrip(priority);
    assert x[..|x| - 1] == exchange;
  }

  lemma {:induction false} LeadingDigitsOfDigits(s: string)
    requires AllDigits(s)
    ensures LeadingDigits(s) == s
  {
    if s != [] {
      LeadingDigitsOfDigits(s[1..]);
    }
  }

  /** Every answer has a numeric first token. */
  predicate NumericPriorities(answers: seq<Answer>) {
    forall i :: 0 <= i < |answers| ==> NumericPriority(answers[i].data)
  }

  /** Every answer has a second token, so none of them throws. */
  predicate AllSpaced(answers: seq<Answer>) {
    forall i :: 0 <= i < |answers| ==> ' ' in answers[i].data
  }

  /**
   * The whole `map`: the records in answer order, or None when some answer
   * throws (the `catch` then discards every record).
   */
  function ParseMxAnswers(answers: seq<Answer>): (r: Option<seq<MxRecord>>)
    requires NumericPriorities(answers)
    ensures r.None? <==> exists i :: 0 <= i < |answers| && ParseMxAnswer(answers[i].data).None?
    ensures r.Some? ==> |r.value| == |answers|
    ensures r.Some? ==> forall i :: 0 <= i < |answers| ==> ParseMxAnswer(answers[i].data) == Some(r.value[i])
  {
    if AllSpaced(answers) then
      Some(seq(|answers|, i requires 0 <= i < |answers| && ' ' in answers[i].data && NumericPriority(answers[i].data) =>
        ParseMxAnswer(answers[i].data).value))
    else None
  }

  // Sorting by priority

  predicate SortedByPriority(rs: seq<MxRecord>) {
    forall i, j :: 0 <= i < j < |rs| ==> rs[i].priority <= rs[j].priority
  }

  /** Places `x` after every record whose priority is not above its own. */
  function Insert(x: MxRecord, s: seq<MxRecord>): (r: seq<MxRecord>)
    ensures |r| == |s| + 1
    ensures multiset(r) == multiset(s) + multiset{x}
  {
    if s == [] then [x]
    else if s[0].priority > x.priority then [x] + s
    else
      assert s == [s[0]] + s[1..];
      [s[0]] + Insert(x, s[1..])
  }

  /** Every record has at least priority `lo`. */
  predicate AllAtLeast(s: seq<MxRecord>, lo: int) {
    forall i :: 0 <= i < |s| ==> lo <= s[i].priority
  }

  lemma {:induction false} InsertAtLeast(x: MxRecord, s: seq<MxRecord>, lo: int)
    requires AllAtLeast(s, lo) && lo <= x.priority
    ensures AllAtLeast(Insert(x, s), lo)
  {
    if s != [] && s[0].priority <= x.priority {
      InsertAtLeast(x, s[1..], lo);
    }
  }

  /** A record in front of a sorted list whose priorities are all at least its own keeps it sorted. */
  lemma ConsSorted(h: MxRecord, rest: seq<MxRecord>)
    requires SortedByPriority(rest) && AllAtLeast(rest, h.priority)
    ensures SortedByPriority([h] + rest)
  {
    var r := [h] + rest;
    forall i, j | 0 <= i < j < |r| ensures r[i].priority <= r[j].priority {
      assert r[j] == rest[j - 1];
      if i > 0 {
        assert r[i] == rest[i - 1];
      }
    }
  }

  /** Inserting into a sorted list keeps it sorted. */
  lemma {:induction false} InsertSorted(x: MxRecord, s: seq<MxRecord>)
    requires SortedByPriority(s)
    ensures SortedByPriority(Insert(x, s))
  {
    if s == [] {
    } else if s[0].priority > x.priority {
      ConsSorted(x, s);
    } else {
      assert SortedByPriority(s[1..]);
      InsertSorted(x, s[1..]);
      InsertAtLeast(x, s[1..], s[0].priority);
      ConsSorted(s[0], Insert(x, s[1..]));
    }
  }

  /**
   * `.sort((a, b) => a.priority - b.priority)`: a stable sort by ascending
   * priority, taking the records in order.
   */
  function SortByPriority(rs: seq<MxRecord>): (r: seq<MxRecord>)
    ensures |r| == |rs|
    ensures multiset(r) == multiset(rs)
    ensures SortedByPriority(r)
  {
    if rs == [] then []
    else
      assert rs == rs[..|rs| - 1] + [rs[|rs| - 1]];
      InsertSorted(rs[|rs| - 1], SortByPriority(rs[..|rs| - 1]));
      Insert(rs[|rs| - 1], SortByPriority(rs[..|rs| - 1]))
  }

  /** The records of one priority, in their order. */
  function WithPriority(rs: seq<MxRecord>, p: int): seq<MxRecord> {
    if rs == [] then []
    else WithPriority(rs[..|rs| - 1], p) + (if rs[|rs| - 1].priority == p then [rs[|rs| - 1]] else [])
  }

  lemma {:induction false} WithPriorityAppend(a: seq<MxRecord>, b: seq<MxRecord>, p: int)
    ensures WithPriority(a + b, p) == WithPriority(a, p) + WithPriority(b, p)
    decreases |b|
  {
    if b == [] {
      assert a + b == a;
    } else {
      WithPriorityAppend(a, b[..|b| - 1], p);
      assert (a + b)[..|a + b| - 1] == a + b[..|b| - 1];
    }
  }

  lemma {:induction false} WithPriorityNone(s: seq<MxRecord>, p: int)
    requires forall i :: 0 <= i < |s| ==> s[i].priority > p
    ensures WithPriority(s, p) == []
  {
    if s != [] {
      WithPriorityNone(s[..|s| - 1], p);
    }
  }

  lemma WithPrioritySingle(x: MxRecord, p: int)
    ensures WithPriority([x], p) == if x.priority == p then [x] else []
  {
    assert [x][..0] == [];
  }

  /** Inserting `x` keeps the order of every priority and puts `x` last among its own. */
  lemma {:induction false} InsertStable(x: MxRecord, s: seq<MxRecord>, p: int)
    requires SortedByPriority(s)
    ensures WithPriority(Insert(x, s), p) == WithPriority(s, p) + (if x.priority == p then [x] else [])
  {
    var tail := if x.priority == p then [x] else [];
    WithPrioritySingle(x, p);
    if s == [] {
      assert Insert(x, s) == [x];
      assert WithPriority(s, p) == [];
    } else if s[0].priority > x.priority {
      assert Insert(x, s) == [x] + s;
      WithPriorityAppend([x], s, p);
      if x.priority == p {
        WithPriorityNone(s, p);
        assert WithPriority(Insert(x, s), p) == [x];
      } else {
        assert WithPriority(Insert(x, s), p) == WithPriority(s, p);
      }
    } else {
      assert SortedByPriority(s[1..]);
      InsertStable(x, s[1..], p);
      PassOver(s, Insert(x, s[1..]), tail, p);
    }
  }

  /** The step past a leading record: it keeps its place in front of the rest. */
  lemma PassOver(s: seq<MxRecord>, rest: seq<MxRecord>, tail: seq<MxRecord>, p: int)
    requires s != []
    requires WithPriority(rest, p) == WithPriority(s[1..], p) + tail
    ensures WithPriority([s[0]] + rest, p) == WithPriority(s, p) + tail
  {
    var head := [s[0]];
    var wHead, wTail := WithPriority(head, p), WithPriority(s[1..], p);
    WithPriorityAppend(head, rest, p);
    WithPriorityAppend(head, s[1..], p);
    assert s == head + s[1..];
    assert WithPriority(s, p) == wHead + wTail;
  }

  /** The sort is stable: the records of each priority keep their original order. */
  lemma {:induction false} SortStable(rs: seq<MxRecord>, p: int)
    ensures WithPriority(SortByPriority(rs), p) == WithPriority(rs, p)
  {
    if rs != [] {
      var init := rs[..|rs| - 1];
      SortStable(init, p);
      InsertStable(rs[|rs| - 1], SortByPriority(init), p);
    }
  }

  /**
   * getMXRecords: no response or no `Answer` gives []; an answer without a
   * second token throws inside the `map`, which the `catch` turns into [];
   * otherwise the parsed records, sorted by priority.
   */
  function GetMxRecords(domain: string, query: (string, string) -> Option<DnsResponse>): (r: seq<MxRecord>)
    requires AnswersOf(query(domain, "MX")).Some? ==> NumericPriorities(AnswersOf(query(domain, "MX")).value)
    ensures AnswersOf(query(domain, "MX")).None? ==> r == []
    ensures SortedByPriority(r)
  {
    match AnswersOf(query(domain, "MX"))
    case None => []
    case Some(answers) =>
      match ParseMxAnswers(answers)
      case None => []
      case Some(rs) => SortByPriority(rs)
  }

  /**
   * What getMXRecords returns for well-formed answers: a permutation of the
   * parsed records of the same length, sorted and stable; one malformed
   * answer empties the whole result.
   */
  lemma MxRecordsAreSortedAnswers(domain: string, query: (string, string) -> Option<DnsResponse>, p: int)
    requires AnswersOf(query(domain, "MX")).Some?
    requires NumericPriorities(AnswersOf(query(domain, "MX")).value)
    ensures var answers := AnswersOf(query(domain, "MX")).value;
      match ParseMxAnswers(answers)
      case None => GetMxRecords(domain, query) == []
      case Some(rs) =>
        && |GetMxRecords(domain, query)| == |answers|
        && multiset(GetMxRecords(domain, query)) == multiset(rs)
        && WithPriority(GetMxRecords(domain, query), p) == WithPriority(rs, p)
  {
    var answers := AnswersOf(query(domain, "MX")).value;
    match ParseMxAnswers(answers)
    case None =>
    case Some(rs) =>
      SortStable(rs, p);
  }

  // ---------------------------------------------------------------------------
  // SPF and DMARC answers

  /** A quote opens the text. */
  predicate LeadingQuote(s: string) {
    s != [] && s[0] == '"'
  }

  /** A quote closes the text, other than the one that opens it. */
  predicate TrailingQuote(s: string) {
    |s| >= 2 && s[|s| - 1] == '"'
  }

  /**
   * `s.replace(/^"|"$/g, "")`: one leading and one trailing quote, each if
   * present, are removed, and the text between them is kept as it is.
   */
  function StripQuotes(s: string): (r: string)
    ensures LeadingQuote(s) ==> OccursAt(s, r, 1)
    ensures !LeadingQuote(s) ==> OccursAt(s, r, 0)
    ensures |r| == |s| - (if LeadingQuote(s) then 1 else 0) - (if TrailingQuote(s) then 1 else 0)
    ensures !LeadingQuote(s) && !TrailingQuote(s) ==> r == s
  {
    var t := if s != [] && s[0] == '"' then s[1..] else s;
    if t != [] && t[|t| - 1] == '"' then t[..|t| - 1] else t
  }

  /** Quoting is undone: the text between the quotes comes back unchanged. */
  lemma UnquoteQuoted(t: string)
    ensures StripQuotes("\"" + t + "\"") == t
  {
    var s := "\"" + t + "\"";
    assert s[1..] == t + "\"";
    assert (t + "\"")[..|t|] == t;
  }

  /** The data of an answer matches `needle`, case-insensitively. */
  predicate DataMatches(a: Answer, needle: string) {
    Includes(ToLower(a.data), needle)
  }

  /** `answers.find(...)`: the index of the first answer whose lower-cased data contains `needle`. */
  function FirstMatching(answers: seq<Answer>, needle: string): (r: Option<nat>)
    ensures r.Some? ==> r.value < |answers| && DataMatches(answers[r.value], needle)
    ensures r.Some? ==> forall j :: 0 <= j < r.value ==> !DataMatches(answers[j], needle)
    ensures r.None? ==> forall j :: 0 <= j < |answers| ==> !DataMatches(answers[j], needle)
  {
    if answers == [] then None
    else if DataMatches(answers[0], needle) then Some(0)
    else match FirstMatching(answers[1..], needle)
      case None => None
      case Some(k) => Some(k + 1)
  }

  /** `value` is the unquoted data of an answer that matches `needle`. */
  predicate UnquotedMatch(answers: seq<Answer>, needle: string, value: string) {
    exists i :: 0 <= i < |answers| && DataMatches(answers[i], needle) && value == StripQuotes(answers[i].data)
  }

  /** The unquoted data of the first answer that matches, or null. */
  function FindRecord(response: Option<DnsResponse>, needle: string): (r: Option<string>)
    ensures AnswersOf(response).None? ==> r.None?
    ensures AnswersOf(response).Some? ==>
      (r.Some? <==> exists i :: 0 <= i < |AnswersOf(response).value| && DataMatches(AnswersOf(response).value[i], needle))
    ensures r.Some? ==> AnswersOf(response).Some? && UnquotedMatch(AnswersOf(response).value, needle, r.value)
  {
    match AnswersOf(response)
    case None => None
    case Some(answers) =>
      match FirstMatching(answers, needle)
      case None => None
      case Some(i) => Some(StripQuotes(answers[i].data))
  }

  /** getSPFRecord: the TXT answers of the domain, the first containing "v=spf1" anywhere. */
  function GetSpfRecord(domain: string, query: (string, string) -> Option<DnsResponse>): (r: Option<string>)
    ensures r.Some? ==> AnswersOf(query(domain, "TXT")).Some?
    ensures r.Some? ==> UnquotedMatch(AnswersOf(query(domain, "TXT")).value, "v=spf1", r.value)
  {
    FindRecord(query(domain, "TXT"), "v=spf1")
  }

  /** getDMARCRecord: the TXT answers of `_dmarc.<domain>`, the first containing "v=dmarc1". */
  function GetDmarcRecord(domain: string, query: (string, string) -> Option<DnsResponse>): (r: Option<string>)
    ensures r.Some? ==> AnswersOf(query("_dmarc." + domain, "TXT")).Some?
    ensures r.Some? ==> UnquotedMatch(AnswersOf(query("_dmarc." + domain, "TXT")).value, "v=dmarc1", r.value)
  {
    FindRecord(query("_dmarc." + domain, "TXT"), "v=dmarc1")
  }

  /**
   * The selection is the first match in answer order, and the record returned
   * is that answer's data with its quotes stripped.
   */
  lemma RecordIsFirstMatch(response: Option<DnsResponse>, needle: string, i: nat)
    requires AnswersOf(response).Some?
    requires i < |AnswersOf(response).value| && DataMatches(AnswersOf(response).value[i], needle)
    requires forall j :: 0 <= j < i ==> !DataMatches(AnswersOf(response).value[j], needle)
    ensures FindRecord(response, needle) == Some(StripQuotes(AnswersOf(response).value[i].data))
  {
    var answers := AnswersOf(response).value;
    var k := FirstMatching(answers, needle);
    assert k.Some?;
    assert k.value == i;
  }

  /** Lower-casing maps an upper-case occurrence of a word onto the lower-case word. */
  lemma {:induction false} LowerOccurrence(s: string, upper: string, lower: string, i: nat)
    requires OccursAt(s, upper, i)
    requires ToLower(upper) == lower
    ensures OccursAt(ToLower(s), lower, i)
  {
    var t := ToLower(s);
    assert |lower| == |upper|;
    forall k | 0 <= k < |lower| ensures t[i + k] == lower[k] {
      assert s[i + k] == upper[k];
    }
    assert t[i..i + |lower|] == lower;
  }

  /** The test ignores case: an answer spelling "V=SPF1" in capitals is selected as SPF. */
  lemma SpfMatchIgnoresCase(a: Answer, i: nat)
    requires OccursAt(a.data, "V=SPF1", i)
    ensures DataMatches(a, "v=spf1")
  {
    assert ToLower("V=SPF1") == "v=spf1";
    LowerOccurrence(a.data, "V=SPF1", "v=spf1", i);
    IncludesAt(ToLower(a.data), "v=spf1", i);
  }
}
