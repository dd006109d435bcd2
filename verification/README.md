# domain-score scoring engine, modelled in Dafny

The domain-health checker gives a domain a set of bounded scores. Each score
comes with a human-readable breakdown. This project models the rules that
produce those scores and proves what they promise:

- **Email authentication** (`EmailSecurity`). Covers:
  - the SPF analyser, scored by the first `all` qualifier found;
  - the DMARC analyser, scored by the `p=` policy and the `rua=`/`ruf=` reporting tags;
  - the selection of the TXT record each analyser scores;
  - the combined route answer, including `totalScore`.
- **MX topology** (`MxCheck`). Covers:
  - the suffix test `isSubdomainOf`;
  - the flags derived from the resolved records;
  - the `details` findings;
  - the four-axis `calculateScore` with its `scoreDetails` lines.
- **Expiry** (`ExpiryScore`). Covers:
  - the ceiling day count;
  - the five-tier score and its message;
  - the route, which refuses a missing date before scoring.
- **DNS answer normalisers** (`DnsAnswers`, over DNS-over-HTTPS JSON answers). Covers:
  - MX text parsing and the stable sort by priority;
  - SPF/DMARC selection by a case-insensitive substring test;
  - quote stripping.
- **Expiry extraction post-processing** (`ExpiryExtraction`). Covers:
  - the default content;
  - the lexical `YYYY-MM-DD` check;
  - the `{"expiry": null}` fallback.

Shared pieces:
- `Js` holds the JavaScript string and number operations the rules use.
- `ScoreLines` holds the score-line convention. Every award is pushed as a line `"<glyph> <text> (+N)"`. `DeltaOf` reads the points back from that line.
- `Http` holds the error/success shape of a route answer.

Email scores are counted in **half-points**, so that the 12.5-point DMARC reporting awards are exact:
- SPF ranges over 0..100 half-points, which is 0..50 points.
- DMARC ranges over 0..150 half-points, which is 0..75 points.
- The score the route reports is half of the model's number.
- `Math.round((spf + dmarc) / 2)` becomes the nearest whole point to S/4, where S is the sum in half-points. Ties round up.

MX score lines also carry half-points (twice the points), so both scorers render their lines the same way.

External effects are parameters:
- `resolveTxt` and `resolveMx` are lookup functions, with None for a failed lookup.
- The DNS-over-HTTPS request is `query(name, type)`.
- The clock is `nowMs`.
- `new Date(text)` is `parseDate`, with None for an Invalid Date.
- `JSON.parse` is `parseJson`.
- The completion call is `complete`. Its result is one of three: the call failed, the answer has no first message, or the first message's content.

## Model

| member | source | states |
|---|---|---|
| EmailSecurity.AddSpfPolicy | app/api/email-security/route.ts:73-91 | The score grows by the award of the first qualifier found: `-all` 25, `~all` 15, `?all` 5, `+all` 0. The finding and the line pushed are exactly those of that policy: "Strict SPF policy (hard fail) …" with a ✓ line, "Moderate SPF policy (soft fail)" with a ~ line, "Neutral SPF policy …" with a ! line, the `+all` warning with a ✗ line. No qualifier pushes nothing. Earlier entries are untouched. |
| EmailSecurity.SpfPolicyLinesAnnounceAward | app/api/email-security/route.ts:73-91 | Each qualified policy has one finding and one line. The line announces exactly the policy's award. The four policies carry four different severities. |
| EmailSecurity.AnalyzeSpf | app/api/email-security/route.ts:51-94 | The result is exactly the findings, score and lines of its record: for an absent or empty record, one "No SPF record found …" finding, one "✗ No SPF record configured (+0)" line and score 0; for a present one, "SPF record found" and its ✓ line, then the policy's finding and line, and 25 points plus the policy award. The score is one of 0/25/30/40/50 points, 0 exactly when the record is absent. The awards on the lines add up to the score. |
| EmailSecurity.FirstPolicyTag | app/api/email-security/route.ts:117 | The index of the leftmost "p=" followed by a word character, and no match before it. None exactly when there is no such match. |
| EmailSecurity.WordRun | app/api/email-security/route.ts:117 | The greedy `\w+` capture: a prefix made of word characters, stopped by the first non-word character. |
| EmailSecurity.WordRunStops | app/api/email-security/route.ts:117 | The capture of a word followed by a non-word character is exactly that word. |
| EmailSecurity.PolicyAfterPrefix | app/api/email-security/route.ts:117-119 | If no `p` comes before the first "p=" + word, that "p=" is the tag and the whole word is its value. |
| EmailSecurity.SubdomainPolicyReadFirst | app/api/email-security/route.ts:117-139 | In "v=DMARC1; sp=none; p=reject", the `sp=` value is read as the policy, so the policy is monitor-only. |
| EmailSecurity.AddDmarcPolicy | app/api/email-security/route.ts:116-140 | The lower-cased policy adds its award: reject 25, quarantine 15, none 5. The finding and line pushed are exactly those of that policy: "Reject policy …" with a ✓ line, "Quarantine policy …" with a ~ line, "Monitor-only policy …" with a ! line. Any other value, or no tag, pushes nothing. Earlier entries are untouched. |
| EmailSecurity.DmarcPolicyLinesAnnounceAward | app/api/email-security/route.ts:116-140 | A policy gets one finding and one line exactly when it earns an award. The line announces that award. Reject, quarantine and none carry three different severities. |
| EmailSecurity.AddDmarcReporting | app/api/email-security/route.ts:142-152 | `rua=` and `ruf=` found anywhere each add 12.5 points, independently of each other. They push "Aggregate reporting is configured" with its ✓ line, then "Forensic reporting is configured" with its ✓ line, each only when its tag is found. |
| EmailSecurity.ReportingLinesAnnounceAward | app/api/email-security/route.ts:142-152 | One reporting line per reporting finding, and together they announce the reporting award. |
| EmailSecurity.AnalyzeDmarc | app/api/email-security/route.ts:96-155 | The result is exactly the findings, score and lines of its record. An absent record gives one "No DMARC record found …" finding, one "✗ … (+0)" line and score 0. A present record gives "DMARC record found" and its ✓ line, then the policy's entries, then the reporting entries. It scores 25 + policy award + reporting awards, at most 75 points, with no cap at 50. The score is 0 exactly when the record is absent. The awards on the lines add up to the score. |
| EmailSecurity.DmarcLinesAnnounceScore | app/api/email-security/route.ts:112-154 | For a present record, findings and lines run in parallel and open with the presence entries. The lines announce the whole score. |
| EmailSecurity.DmarcScoreSteps | app/api/email-security/route.ts:112-152 | A present record's DMARC score lies between 25 and 75 points, in steps of 2.5. |
| EmailSecurity.TotalScore | app/api/email-security/route.ts:189 | `Math.round` of the average: the result t satisfies 4t−2 ≤ S < 4t+2, where S is the half-point sum. |
| EmailSecurity.FindSpfRecord | app/api/email-security/route.ts:37-49 | The chosen record is the first whose first chunk, lower-cased, starts with "v=spf1", and its chunks are joined. A record with no chunks reached earlier throws, and the result is null. The result is at least 6 characters long. |
| EmailSecurity.DmarcRecordFromTxt | app/api/email-security/route.ts:25-35 | `records[0]` joined, with no content check. A failed lookup or an empty answer gives null. |
| EmailSecurity.CheckEmailSecurity | app/api/email-security/route.ts:157-192 | A falsy domain gives exactly the 400. The SPF record is looked up at the domain and the DMARC record at `_dmarc.<domain>`. Each half reports exactly its analyser's score, findings and rendered lines for the record selected. `exists` holds exactly when a record was found, which is exactly when its score is non-zero. `totalScore` rounds the average and lies in 0..63. Every rendered score line carries a marker, and the markers add up to the score. |
| ScoreLines.PushAward | app/api/email-security/route.ts:69-71 | Pushing an award line adds exactly its points to what the list announces. |
| ScoreLines.PointsRoundTrip | app/api/email-security/route.ts:144-146 | Whatever precedes it, the marker written for h half-points ("(+N)" or "(+N.5)") reads back as h. |
| ScoreLines.AwardDelta | app/api/email-security/route.ts:71 | Every rendered award line announces exactly the points it carries. |
| ScoreLines.AnnouncedAwards | app/api/email-security/route.ts:56-154 | Every rendered line of an all-award list carries a marker, and the markers add up to what the list awards. |
| Js.IncludesIff | app/api/email-security/route.ts:74 | The `includes` scan is true exactly when the substring occurs at some index. |
| Js.ToLower | app/api/email-security/route.ts:119 | Lower-casing keeps the length and lowers each character on its own. |
| Js.SplitJoin | app/utils/dns.ts:36 | Splitting on a separator loses nothing: joining the parts with it gives the text back. |
| Js.Split | app/utils/dns.ts:36 | There is always at least one part, and no part contains the separator. |
| Js.StripTrailingDot | app/api/mx-check/route.ts:24-25 | One trailing dot is removed if present. Otherwise the name is unchanged. |
| Js.DecimalRoundTrip | app/utils/dns.ts:38 | Reading a number's decimal text back gives the number. |
| MxCheck.DottedSuffixIsSuffix | app/api/mx-check/route.ts:26 | Ending with ".d" implies ending with "d", so the second disjunct adds nothing. |
| MxCheck.SubdomainIsSuffix | app/api/mx-check/route.ts:23-27 | `isSubdomainOf` holds exactly when the host without its trailing dot ends with the domain without its trailing dot. |
| MxCheck.AnyPrefixPasses | app/api/mx-check/route.ts:23-27 | Any text followed by the domain passes, dot or no dot. |
| MxCheck.LookAlikeCounts | app/api/mx-check/route.ts:23-27 | "badexample.com" counts as on "example.com". |
| MxCheck.DistinctPriorities | app/api/mx-check/route.ts:103-106 | The Set of priorities has more than one element exactly when two records differ in priority. That implies at least two records. |
| MxCheck.AddRedundancy | app/api/mx-check/route.ts:45-51 | Several records: +25 and the line "✓ Multiple MX records provide redundancy (+25)". One record: +0 and "✗ Single MX record - no redundancy (+0)". Exactly this one line is appended. |
| MxCheck.AddPriorityWeights | app/api/mx-check/route.ts:53-61 | Distinct priorities: +25 and "✓ Different priority weights for failover (+25)". Several records of one priority: "✗ Multiple MX records but no priority differentiation (+0)". No line otherwise. |
| MxCheck.AxisLinesPassWhenPaid | app/api/mx-check/route.ts:45-61 | The redundancy and priority lines are ✓ with 25 points exactly when their axis holds, and ✗ with none otherwise. The priority lines announce 25 points exactly for distinct priorities. |
| MxCheck.AddDomainManagement | app/api/mx-check/route.ts:63-70 | +25 either way, appending the line for where the servers are: "Self-hosted mail servers" or "Managed by professional email provider". `onSameDomain` only picks the wording. |
| MxCheck.CalculateScore | app/api/mx-check/route.ts:29-73 | No records gives 0 with exactly `["No MX records: Score 0"]`, dropping the earlier ✗ line. Otherwise the lines are exactly: the existence line, the redundancy line, the priority line if any, and the domain line. The score is 50 + 25·multiple + 25·distinct priorities, with 4 lines for several records and 3 for one. The lines' awards equal the score. |
| MxCheck.Describe | app/api/mx-check/route.ts:116-147 | The findings are exactly those of the flags, in push order: `["No MX records found"]` for an empty list; otherwise the count, the redundancy finding, the priority finding, and the domain finding. |
| MxCheck.FindingsInOrder | app/api/mx-check/route.ts:116-147 | An empty list has the one finding that says so. Otherwise there are 4 findings for several records and 3 for one: the count first, then redundancy, then the priority finding only for several records, and the domain finding last. |
| MxCheck.CheckMx | app/api/mx-check/route.ts:75-156 | A falsy domain gives exactly the 400. A failed lookup counts as no records. The records are returned unchanged. The flags mean: length > 0, length ≥ 2, two distinct priorities (which implies several records), and a non-empty list with every exchange on the domain. `details` is exactly the findings of those flags. The score is 50 + 25·multiple + 25·distinct priorities with records, 0 without. `scoreDetails` is exactly the rendered lines of the flags. Every rendered marker adds up to the score. |
| ExpiryScore.CeilDays | app/api/expiry-score/route.ts:7-13 | The ceiling of the day difference: D·(days−1) < expiry − now ≤ D·days, where D is 86 400 000 ms. |
| ExpiryScore.CeilDaysExact | app/api/expiry-score/route.ts:11 | A time exactly n days ahead is n days away. One millisecond more is n+1 days. |
| ExpiryScore.DaysUntilExpiry | app/api/expiry-score/route.ts:7-13 | NaN exactly when the date does not parse. Otherwise the ceiling day count of the parsed time. |
| ExpiryScore.Tier | app/api/expiry-score/route.ts:15-21 | A multiple of 25, at most 100. It reaches 25, 50, 75 and 100 exactly when the days exceed 1, 7, 30 and 180. |
| ExpiryScore.TierMonotone | app/api/expiry-score/route.ts:15-21 | The score never decreases as the days grow. |
| ExpiryScore.CalculateScore | app/api/expiry-score/route.ts:15-21 | NaN fails every comparison and scores 100. A number scores its tier. |
| ExpiryScore.MessagesTellScoresApart | app/api/expiry-score/route.ts:41-46 | The five scores have five different messages, and none of them is "No expiry date provided". |
| ExpiryScore.ExpiryPost | app/api/expiry-score/route.ts:23-63 | A body that cannot be read, or JSON `null`, gives the 500 reply. A falsy expiry gives 400, score 0, "No expiry date provided" and a null day count. Otherwise status 200, where the score is that of the day count, the message is that of the score, and NaN is written as null. |
| ExpiryScore.MissingIsNotScoredZero | app/api/expiry-score/route.ts:27-46 | The missing-date reply and a scored 0 differ: only the refusal has status 400 and that message. |
| ExpiryScore.ScoreMatchesReturnedDays | app/api/expiry-score/route.ts:38-52 | On the scored path, the score is the tier of the returned day count, or 100 when that count is null. |
| ExpiryScore.UnparsedDateLooksHealthy | app/api/expiry-score/route.ts:7-21 | As written, "2024-13-45" that does not parse scores 100, "healthy", with a null day count. |
| ExpiryScore.ExpiryPostChecked | app/api/expiry-score/route.ts:23-52 | With the fix: it agrees with the route whenever the date parses. Score 100 then implies a day count above 180. Every 200 reply scores the tier of its day count. |
| DnsAnswers.LeadingDigits | app/utils/dns.ts:38 | The longest prefix of digits: all digits, and followed by a non-digit or the end. |
| DnsAnswers.ParseMxAnswer | app/utils/dns.ts:35-40 | An answer parses exactly when it contains a space, since otherwise `exchange.replace` throws. A parsed exchange contains no space. The priority token must start with a decimal digit and carry no "0x" prefix. |
| DnsAnswers.SplitTwo | app/utils/dns.ts:36 | Text with exactly one space splits into its two sides. |
| DnsAnswers.ParseMxInvertsPresentation | app/utils/dns.ts:35-40 | Parsing "<priority> <exchange>." gives back the priority and the exchange without its final dot. |
| DnsAnswers.ParseMxAnswers | app/utils/dns.ts:35-40 | One malformed answer makes the whole result fail. Otherwise the records are in answer order, one per answer. |
| DnsAnswers.Insert | app/utils/dns.ts:41 | Insertion adds exactly the one record. |
| DnsAnswers.InsertSorted | app/utils/dns.ts:41 | Insertion keeps a list sorted by priority. |
| DnsAnswers.InsertStable | app/utils/dns.ts:41 | The records of each priority keep their order, and the inserted record goes last among its priority. |
| DnsAnswers.SortByPriority | app/utils/dns.ts:41 | The sort keeps the length, is a permutation (same multiset), and is ascending by priority. |
| DnsAnswers.SortStable | app/utils/dns.ts:41 | The sort is stable: the records of every priority keep their original order. |
| DnsAnswers.GetMxRecords | app/utils/dns.ts:30-46 | A missing `Answer` gives []. The result is always sorted by priority. |
| DnsAnswers.MxRecordsAreSortedAnswers | app/utils/dns.ts:30-46 | With well-formed answers, the result is a same-length, stable permutation of the parsed records. With any malformed answer, it is []. |
| DnsAnswers.StripQuotes | app/utils/dns.ts:56 | A leading quote is dropped and the result starts at index 1; otherwise it starts at index 0. The length falls by one for a leading quote and one for a trailing quote (other than the leading one). So exactly one quote at each end, each only if present, is removed. Text with neither is unchanged. |
| DnsAnswers.UnquoteQuoted | app/utils/dns.ts:56 | Stripping the quotes from `"` + t + `"` gives t back. |
| DnsAnswers.FirstMatching | app/utils/dns.ts:53-55 | The first answer whose lower-cased data contains the needle, with none before it. None when no answer matches. |
| DnsAnswers.FindRecord | app/utils/dns.ts:48-61 | Null when `Answer` is missing. A record is returned exactly when some answer matches, and it is the unquoted data of a matching answer. |
| DnsAnswers.GetSpfRecord | app/utils/dns.ts:48-61 | A returned SPF record is the unquoted data of a domain TXT answer containing "v=spf1" anywhere, in any case. |
| DnsAnswers.GetDmarcRecord | app/utils/dns.ts:63-76 | A returned DMARC record is the unquoted data of a TXT answer at `_dmarc.<domain>` containing "v=dmarc1". |
| DnsAnswers.RecordIsFirstMatch | app/utils/dns.ts:53-56 | The returned record comes from the first matching answer. |
| DnsAnswers.LowerOccurrence | app/utils/dns.ts:54 | Lower-casing maps an upper-case occurrence of a word onto its lower-case form. |
| DnsAnswers.SpfMatchIgnoresCase | app/utils/dns.ts:54 | An answer spelling "V=SPF1" is selected as SPF. |
| ExpiryExtraction.DateShapeByPosition | app/api/openai/route.ts:47 | The regex accepts exactly the 10-character texts with digits at 0–3, 5–6 and 8–9 and dashes at 4 and 7. |
| ExpiryExtraction.DateShapeOfParts | app/api/openai/route.ts:47 | Any 4, 2 and 2 digits joined by dashes are accepted. |
| ExpiryExtraction.ImpossibleDateHasShape | app/api/openai/route.ts:47 | "2024-13-45" is accepted, because month and day ranges are not checked. |
| ExpiryExtraction.OneDateArrayHasShape | app/api/openai/route.ts:47 | Because `test` converts its argument to a string, an array holding one date-shaped string is accepted too. |
| ExpiryExtraction.ContentText | app/api/openai/route.ts:42-44 | Missing or empty content is replaced by `{"expiry": null}`. Other content is used as it is. |
| ExpiryExtraction.Postprocess | app/api/openai/route.ts:39-53 | A parse failure or null gives the fallback. A parsed value with a truthy `expiry` whose text lacks the date shape gives the fallback. Any other parsed value is returned unchanged: a falsy `expiry`, a non-object, a date-shaped string or array. A truthy `expiry` in the reply always has the date shape. |
| ExpiryExtraction.MissingContentIsNull | app/api/openai/route.ts:42-44 | Missing content gives `{"expiry": null}`. |
| ExpiryExtraction.DateShapedExpiryKept | app/api/openai/route.ts:47-55 | An object with a date-shaped `expiry` string is returned unchanged. |
| ExpiryExtraction.MalformedExpiryNulled | app/api/openai/route.ts:46-53 | A non-empty `expiry` string without the shape is replaced by `{expiry: null}`. |
| ExpiryExtraction.ExtractExpiry | app/api/openai/route.ts:8-59 | A falsy `whoisData` gives the 400 before any call. A failed call gives 500 with `{expiry: null}`. A completion without `choices[0].message` throws inside the inner `try` and gives 200 with `{expiry: null}`. Otherwise 200 with the post-processed content. A truthy `expiry` in a 200 reply has the date shape. |

## Left out

- Network I/O is not modelled: `resolveTxt`, `resolveMx`, the DNS-over-HTTPS `fetch`, the WHOIS lookup and the completion call. Each becomes a function parameter whose result the model takes as given.
- `new Date()` is not modelled; the current time is the parameter `nowMs`. `new Date(text)` is the parameter `parseDate`. Times are whole milliseconds.
- `JSON.parse` and `request.json()` are not modelled. JSON parsing is the parameter `parseJson`, and the request body is an `Option`. JSON numbers in `ExpiryExtraction.JsValue` are integers, so `String` of a fractional number is not modelled.
- The inputs `domain`, `expiry` and `whoisData` are modelled as strings. A request field of another JSON type (number, object) is not modelled.
- The 500 replies of the email-security and MX routes are not modelled, because nothing in the modelled code can throw there. They arise only from an unreadable request body.
- `toLowerCase` is ASCII lower-casing. Non-ASCII letters are not modelled, and they do not affect the ASCII needles ("v=spf1", "reject", …) the rules compare with.
- DnsAnswers.GetMxRecords: requires every MX answer's first token to start with a decimal digit and not with "0x" or "0X", so `parseInt` reads it in base 10 and never gives NaN. Hex-prefixed priorities, which `parseInt` reads in base 16, are not modelled. NaN priorities are not modelled, nor the sort order the comparator gives them. `parseInt`'s skipping of leading whitespace and its sign are not modelled either, because the split on spaces leaves no leading space in a token.
- DnsAnswers.SortByPriority stands for `Array.prototype.sort` with the `a.priority - b.priority` comparator. It is a stable insertion sort; ECMAScript requires the built-in sort to be stable.
- The `Status`, `type` and `TTL` fields of a DNS answer are carried but unused, as in the source.
- Logging (`console.error`) is not modelled.
- `app/api/domain-validation/route.ts` is not part of this model: it wraps a third-party validator whose logic is not available.
- The WHOIS route, the page and the components (presentation, colour thresholds) are not part of this model.
- EmailSecurity.AnalyzeDmarc: its ensures give the score formula and the 75-point bound. The steps of 2.5 points are stated separately by `EmailSecurity.DmarcScoreSteps` about that formula.
- MxCheck.CalculateScore: its ensures give the score formula. The resulting set {0, 50, 75, 100} is stated by `MxCheck.CheckMx`.
- The analysers `AnalyzeSpf`, `AnalyzeDmarc` and `CalculateScore` delegate each section of their source function to a helper method (`AddSpfPolicy`, `AddDmarcPolicy`, `AddDmarcReporting`, `AddRedundancy`, `AddPriorityWeights`, `AddDomainManagement`). Each helper performs the same pushes in the same order. Each returns the updated lists instead of mutating shared arrays.

## Findings

| source | as written | input that shows it | evidently intended | confidence | as-written member | corrected member |
|---|---|---|---|---|---|---|
| app/api/expiry-score/route.ts:7-21 | An expiry string that `new Date` cannot parse gives NaN days. Every `<=` test on NaN is false, so the reply is score 100, "Domain expiry is healthy (>6 months)", with a null day count. | expiry "2024-13-45". The extraction's lexical check accepts it, and it is an Invalid Date. | A date that does not parse is refused like a missing one. A score of 100 means more than 180 days remain. | not executed | ExpiryScore.UnparsedDateLooksHealthy | ExpiryScore.ExpiryPostChecked |
