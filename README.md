# Hospital bill audit engine, modelled in Dafny

This project models the deterministic core of `Combov1.py`, a hospital billing
audit application. The model covers five parts:

- **The bill parser** reads the text of each page of a hospital bill. It finds
  category headers and dated item lines. For each item it joins up to four
  following lines, picks the charged amount and the billed text, and stamps
  the item with the category in force. Items go through a per-category
  buffer before they reach the output.
- **The bill summary** adds the total and the per-category amounts. Beside it,
  the concession details are merged page by page.
- **The rate card and the rate validator.** Rows of the card are loaded into a
  STANDARD and a CGHS lookup. The payer company decides the scheme. Each bill
  line is checked against the rate of its service code.
- **The rate-validation audit** maps every validation status to an audit
  outcome.
- **The money-leakage analysis** sums the leakage by outcome and by category
  and derives priority issues and recommendations.

A small scan that cuts the first brace-balanced JSON candidate out of a model
reply is modelled as well.

Money is Dafny `real`, so sums and products are exact. The source's 0.01 float
tolerances become exact comparisons. Strings are `seq<char>`.

The modules follow the program:

| module | file | models |
|---|---|---|
| `Maybe` | maybe.dfy | `Option` |
| `Text` | text.dfy | `strip`, `startswith`, `in`, `rsplit(sep, 1)[0]`, `' '.join`, `split('\n')`, `split()[0]`, `upper`, `lower`, `title`, `replace` |
| `Amounts` | amounts.dfy | `re.findall(r'([\d,]+\.\d{2})', …)` and the value of a matched amount |
| `BillParser` | bill_parser.dfy | `extract_bill_items_from_pdf` |
| `Concession` | concession.dfy | `extract_concession_details` |
| `BillSummary` | bill_summary.dfy | `parse_hospital_bill` |
| `RateSheet` | rate_sheet.dfy | `RateValidator._load_static_rate_sheet`, `get_rate_sheet_summary` |
| `RateValidator` | rate_validator.dfy | `determine_rate_scheme`, `validate_rate` |
| `RateAudit` | rate_audit.dfy | `perform_rate_validation_audit` |
| `Leakage` | leakage.dfy | `calculate_money_leakage`, `generate_recommendations` |
| `JsonScan` | json_scan.dfy | the greedy scan of `extract_json_from_text` |

The loops of the source are Dafny methods. Each method is proved equal to a
specification function, and the properties are proved as lemmas about those
functions:

- The parser's line loop with its category buffer is `BillParser.ScanPageLines`.
  Its specification is a buffer-free scan, `ScanPage`, and the method's
  contract shows the buffer neither loses nor reorders items.
- The look-ahead loop is `BillParser.LookAhead`.
- The other loops are the summary loop, the concession page loop, the
  rate-card row loop, the audit loop, the leakage loops and the brace-depth
  loop.

Behaviour of the code that the model keeps:

- A concession field is overwritten by every page whose pattern matches, so
  the last matching page decides its value (Combov1.py:285-292).
- With two or more amounts, the billed text is what precedes the last
  occurrence of the second amount's literal, stripped (Combov1.py:225). The
  billed text can still contain that literal.
- `validate_rate` uses the quantity as given; zero and negative quantities
  are accepted (Combov1.py:870).
- The header test, the item test and the section-end test on a line are three
  `if`s in sequence (Combov1.py:168, 182, 244). A line can announce a header
  and end the section at once.
- The CGHS keyword list has ten entries, `SOUTHERN RAILWAY` among them
  (Combov1.py:800-804).
- The "Billed amount mismatch" remark set at Combov1.py:841-842 is always
  replaced by a later remark.

## Model

| member | source | states |
|---|---|---|
| Text.TrimStartFacts | Combov1.py:165 | `lstrip` removes exactly the leading blanks: the result is a suffix, starts with a non-blank, and everything cut is blank |
| Text.TrimEndFacts | Combov1.py:165 | `rstrip` removes exactly the trailing blanks: the result is a prefix, ends with a non-blank, and everything cut is blank |
| Text.StripKeepsPrefix | Combov1.py:225 | stripping a text whose first character is not blank yields a prefix of it, followed in the text only by blanks |
| Text.StripIdempotent | Combov1.py:190 | a stripped line has no blank at either end, and stripping it again changes nothing |
| Text.LastOccurrenceFromIsLast | Combov1.py:225 | the backward search finds an occurrence with none after it, or finds none when there is none |
| Text.RSplitHeadFacts | Combov1.py:225 | `rsplit(sep, 1)[0]` is a prefix; when `sep` occurs, it occurs right after the prefix and nowhere later; otherwise the whole text is returned |
| Text.JoinStartsWithFirst | Combov1.py:203 | the joined text begins with its first part |
| Text.SplitJoin | Combov1.py:161 | joining the pieces of `split('\n')` with `'\n'` gives the page text back, and no piece holds a newline |
| Text.TakeWord | Combov1.py:230 | the first word is a prefix of non-blanks followed by a blank or the end of the text |
| Text.UpperFacts | Combov1.py:797 | an upper-cased text holds no lower-case letter, upper-casing again changes nothing, and lower-casing it gives what lower-casing the original gives |
| Text.LowerFacts | Combov1.py:1128 | a lower-cased text holds no upper-case letter, lower-casing again changes nothing, and upper-casing it gives what upper-casing the original gives |
| Text.TitleFrom | Combov1.py:1214 | `title()` keeps the length and every non-letter; a letter becomes upper case when the character before it (or, for the first, the text before) is not a letter, and lower case otherwise |
| Text.ReplaceCharFacts | Combov1.py:1214 | after `replace('_', ' ')` no underscore is left, a text without underscores comes back unchanged, and replacing again changes nothing |
| Amounts.RunEndIsMaximal | Combov1.py:206 | the greedy run of digits and commas is the longest one |
| Amounts.MatchEndAt | Combov1.py:206 | a match found at a position is an amount literal `[\d,]+\.\d{2}` |
| Amounts.MatchAtIff | Combov1.py:206-207 | the pattern matches at a position exactly when an amount literal starts there, and the match ends where that literal ends |
| Amounts.FindAmountsFrom | Combov1.py:207 | every match `findall` reports lies inside the text and spells an amount literal |
| Amounts.FindAmountsMatch | Combov1.py:207 | every reported match is where the pattern, tried at its start, ends |
| Amounts.FindAmountsOrdered | Combov1.py:207 | the matches come left to right without overlapping |
| Amounts.FirstMatchIsLeftmost | Combov1.py:207-209 | `findall` finds nothing exactly when the pattern matches nowhere, and its first match is the leftmost place where it matches |
| Amounts.NextMatchIsLeftmost | Combov1.py:207 | `findall` skips nothing: between the end of one match and the start of the next the pattern matches nowhere |
| Amounts.NoMatchAfterLast | Combov1.py:207 | after the last match (from the start when there is none) the pattern matches nowhere |
| Amounts.AmountValue | Combov1.py:214-220 | the amount of a literal is never negative |
| Amounts.AmountValueSplit | Combov1.py:214-220 | the amount is the integer digits read with the commas dropped, plus the two fraction digits as hundredths |
| BillParser.FindHeaderFromIsFirst | Combov1.py:168-177 | the header search from a table position finds the first entry the line mentions, or finds nothing only when it mentions none |
| BillParser.FindHeaderIsFirst | Combov1.py:168-177 | a line announces a header exactly when it starts with some table key or contains it after `") "`, and then it announces the first such key in table order |
| BillParser.MatchHeader | Combov1.py:168-177 | the loop over the category table returns the header the line announces |
| BillParser.JoinIndicesIff | Combov1.py:189-200 | a following line is joined exactly when no line after the item line, up to and including it, is a stop line (date, `Run Date`, `***`, `1)`..`19)`, `Concession Details`, `Total Bill Amount`) and it is neither empty nor a `Patient Name` line |
| BillParser.JoinIndices | Combov1.py:189 | the joined lines lie within the look-ahead window, so at most four are joined |
| BillParser.JoinFromIndices | Combov1.py:187-200 | the joined parts are, in order, the stripped lines at the joined indices |
| BillParser.JoinedPartsShape | Combov1.py:187-189 | the item text starts with the stripped item line and takes in at most four more lines |
| BillParser.LookAhead | Combov1.py:187-200 | the look-ahead loop collects exactly the item line and the joined parts |
| BillParser.ChargeDateKeepsDate | Combov1.py:230 | the charge date still begins with the item line's `DD-MM-YYYY` date |
| BillParser.StrippedHeadIsPrefix | Combov1.py:225 | cutting at the last occurrence of a literal and stripping leaves a prefix that ends in a non-blank, followed only by blanks and then that last occurrence |
| BillParser.BilledText | Combov1.py:223-227 | the billed text: the joined text, or with two or more amounts the text before the last occurrence of the second amount, stripped; `BilledTextIsPrefix` states its properties |
| BillParser.BilledTextIsPrefix | Combov1.py:223-227 | the billed text is always a prefix of the joined text; with one amount it is the whole text; with two or more it ends in a non-blank and only blanks separate it from the last occurrence of the second amount, so it is exactly the text before that occurrence without trailing blanks |
| BillParser.ItemFromText | Combov1.py:206-236 | the item a dated line makes from its joined text: none without an amount, otherwise the first amount, the charge date, the billed text, the page and the header in force; `ItemFromTextFacts` states its properties |
| BillParser.ItemFromTextFacts | Combov1.py:206-236 | an item is made exactly when the text holds an amount; its amount is the first match, is non-negative, and it carries a dated charge date, a prefix of the text as billed text, the page, and the header in force |
| BillParser.EndedIsFinal | Combov1.py:244-249 | once the section-end line has been looked at, the rest of the page changes nothing |
| BillParser.ScanBeforeEnd | Combov1.py:164-251 | before the section end, the page has emitted each looked-at line's item stamped with the most recent header (or the header carried in), and that header is in force |
| BillParser.ScanAtEnd | Combov1.py:244-249 | at the first section-end line, the page yields the items of the lines up to and including it, stamped with the most recent header, and nothing from later lines |
| BillParser.ClassifyLineOk | Combov1.py:165-238 | every line announces no header or one from the table, and any item it starts has the page number, a non-negative amount and a dated charge date |
| BillParser.ScanLinesOk | Combov1.py:164-251 | every item a page emits has a non-negative amount, a dated charge date, the page number, and an entity and category that are a table label and its code, or both `UNCATEGORIZED` |
| BillParser.ScanPageOk | Combov1.py:158-256 | the same for a whole page, and the header carried to the next page is one from the table |
| BillParser.ScanPagesOk | Combov1.py:158-256 | after n pages every item is well formed and its page number lies in 1..n |
| BillParser.ScanPagesPage | Combov1.py:234 | after n pages every item's `bill_page` lies in 1..n |
| BillParser.ScanPages | Combov1.py:158-256 | the scan of the first n pages, page after page, with the header carried from one page to the next; `ScanPagesOk` and `ScanPagesOrdered` state its properties |
| BillParser.ScanPagesOrdered | Combov1.py:158-256 | the items come in page order |
| BillParser.BillItemsOf | Combov1.py:127-259 | the parser's output: the items of the scan of every page; `BillItemsOk` states its properties |
| BillParser.BillItemsOk | Combov1.py:127-259 | the parser's output: every item is well formed and on a page of the document, and the items are in page order |
| BillParser.ReadLine | Combov1.py:165-244 | the body of the line loop reads off line i the header it announces, the item it starts stamped with the header then in force, and whether it ends the section |
| BillParser.Flush | Combov1.py:171-173 | the buffer is appended to the output and emptied, in order |
| BillParser.Buffer | Combov1.py:171-238 | one line's effect on the buffers: a header first flushes the category buffer into the output, and the line's item joins the buffer, so output and buffer together grow by exactly that item |
| BillParser.ScanStep | Combov1.py:158-256 | one pass of the page loop keeps its account: output and buffer together hold what the scan of the lines read so far has emitted |
| BillParser.ScanPageLines | Combov1.py:158-256 | the page loop with its category buffer emits exactly the page's items in order, however the buffer is flushed, and carries the header on |
| BillParser.ExtractBillItems | Combov1.py:127-259 | the document loop returns exactly the items of all pages, page by page, with the header carried across pages |
| BillSummary.SummarizeBill | Combov1.py:321-331 | the summary loop yields the total, the categories in order of first appearance, and their running totals |
| BillSummary.TotalsFacts | Combov1.py:326-331 | the dictionary's keys are its insertion order, list each category of the items once and nothing else, and each holds the amount of its category's items |
| BillSummary.OrderMembers | Combov1.py:327-330 | a category is a key exactly when some item has it |
| BillSummary.TotalsValues | Combov1.py:327-331 | each key holds the amount of its category's items; a category without a key has no items |
| BillSummary.KeysAreOrder | Combov1.py:327-330 | the keys are exactly the insertion order, without repeats |
| BillSummary.CategoriesSumToTotal | Combov1.py:321-331 | the category totals add up to the bill total |
| BillSummary.TotalNonNegative | Combov1.py:321 | a total of non-negative amounts is non-negative |
| BillSummary.CategoryTotalNonNegative | Combov1.py:327-331 | a category total of non-negative amounts is non-negative |
| BillSummary.PageLines | Combov1.py:160-161 | each page's lines are its text split at newlines |
| BillSummary.ParseHospitalBill | Combov1.py:309-331 | the parsed bill holds the parser's items, their count, the merged concession details and the summary of the items |
| BillSummary.ParsedSummary | Combov1.py:316-331 | for any document the total is non-negative and equals the sum of the category totals; every key is `UNCATEGORIZED` or a table code, and holds the non-negative amount of its category |
| Concession.ApplyFieldsFacts | Combov1.py:285-292 | after one page, a field whose pattern matched holds that page's amount, and every other field is unchanged |
| Concession.PageFieldStep | Combov1.py:285-292 | one page's effect on one field: overwritten when its pattern matches, left alone otherwise |
| Concession.FieldPresentIffMatched | Combov1.py:285-292 | a field is present exactly when its pattern matched on some page |
| Concession.LastMatchingPageWins | Combov1.py:280-292 | the last page on which a field's pattern matches decides its value |
| Concession.ToAdvances | Combov1.py:298-303 | one advance entry per match, in order, with the match's date, reference and amount |
| Concession.AdvancesGrow | Combov1.py:278-303 | later pages only append advance entries; duplicates are kept |
| Concession.PageBlock | Combov1.py:295-303 | every match on page k appears in `advance_details`, right after the entries of the earlier pages, in match order |
| Concession.TryFields | Combov1.py:285-292 | the pattern loop over one page tries every field in the source's order: a field whose pattern matches holds that page's amount, and every other field is as it was |
| Concession.AppendAdvances | Combov1.py:298-303 | the match loop appends one entry per match |
| Concession.ExtractConcessionDetails | Combov1.py:261-307 | the page loop yields the merged fields and the advance list, which is always present |
| JsonScan.FirstBraceFrom | Combov1.py:104 | `find("{")` gives the first opening brace, or nothing when there is none |
| JsonScan.ExtractJsonCandidate | Combov1.py:104-115 | the depth-counter loop returns the prefix from the first brace whose depth first returns to zero, or nothing when the depth never returns to zero |
| JsonScan.ClosedPrefix | Combov1.py:113-114 | a slice from the first brace whose depth is zero and stays positive before is a balanced candidate |
| JsonScan.FirstBalancedUnique | Combov1.py:113-115 | no shorter prefix of a candidate is a candidate, so the candidate is unique |
| JsonScan.FirstBalancedShape | Combov1.py:109-114 | a candidate that begins with `{` ends with `}` |
| RateSheet.PutShape | Combov1.py:767 | a dictionary write keeps every key in place and appends a new key at the end |
| RateSheet.PutHasCode | Combov1.py:767 | after a write the keys are the old ones and the written one |
| RateSheet.PutDistinct | Combov1.py:767 | a write never duplicates a key |
| RateSheet.GetPutSame | Combov1.py:767 | reading a key just written gives the new entry |
| RateSheet.GetPutOther | Combov1.py:776 | writing a key leaves every other key's entry alone |
| RateSheet.Key | Combov1.py:764-766 | a present code is accepted exactly when its stripped text is not `''`, `'nan'` or `'None'`, and the key is that stripped text, with no blank at either end |
| RateSheet.AnyRaisesIff | Combov1.py:769 | the load fails exactly when some row with an accepted code has a rate that `float()` rejects |
| RateSheet.Offer | Combov1.py:764-770 | a row offers an entry to a lookup exactly when its code is accepted |
| RateSheet.FoldDistinct | Combov1.py:762-779 | a lookup never holds a code twice |
| RateSheet.FoldHasCode | Combov1.py:762-779 | a lookup holds exactly the accepted codes |
| RateSheet.FoldSize | Combov1.py:762-779 | a lookup's size is the number of distinct accepted codes |
| RateSheet.LastOfferWins | Combov1.py:762-779 | the last offer of a code decides its entry |
| RateSheet.LastRowWins | Combov1.py:762-779 | the last row with an accepted code decides that code's name and rate, and an empty rate gives 0.0 |
| RateSheet.OfferRow | Combov1.py:764-770 | offering one row to one lookup fails exactly when its rate cannot be read, and otherwise writes its entry |
| RateSheet.LoadRow | Combov1.py:762-779 | one row feeds the standard lookup and then the CGHS lookup, and fails when either rate cannot be read |
| RateSheet.LoadedSheet | Combov1.py:740-787 | the loaded sheet: two empty lookups when the card is missing or a row fails, otherwise the row fold into each lookup; `LoadedSheetCodes` and `LastRowWins` state its properties |
| RateSheet.LoadStaticRateSheet | Combov1.py:740-787 | the row loop yields the loaded sheet, and two empty lookups when the card is missing or a row fails |
| RateSheet.LoadedSheetCodes | Combov1.py:740-787 | a failed load leaves both lookups empty; otherwise each lookup holds each accepted code of its columns exactly once |
| RateSheet.RateSheetSummary | Combov1.py:903-912 | the total number of services is the standard count plus the CGHS count |
| RateSheet.SummaryCountsDistinctCodes | Combov1.py:903-912 | the summary counts the distinct accepted codes of each lookup and their sum, and zero when the load failed |
| RateValidator.MentionsKeywordFromIff | Combov1.py:806-808 | the keyword loop finds a keyword exactly when one occurs in the name |
| RateValidator.DetermineRateScheme | Combov1.py:789-810 | the scheme is always STANDARD or CGHS; `SchemeIff` states which |
| RateValidator.SchemeIff | Combov1.py:789-810 | the scheme is CGHS exactly when some keyword occurs in the upper-cased name, and STANDARD otherwise |
| RateValidator.RedundantKeywords | Combov1.py:800-804 | a name holding `SOUTHERN RAILWAY` or `RAILWAYS` holds `RAILWAY`, and one holding `CENTRAL GOVERNMENT` holds `GOVERNMENT` |
| RateValidator.FullListImpliesReduced | Combov1.py:800-808 | a name holding any keyword holds one of the seven keywords that are not redundant |
| RateValidator.ReducedKeywordsAgree | Combov1.py:800-810 | the scheme choice with the seven keywords decides exactly as with all ten |
| RateValidator.FindUpperFrom | Combov1.py:850-855 | the case-insensitive search finds the first key in table order that upper-cases to the code, or nothing when there is none |
| RateValidator.ValidateRate | Combov1.py:812-901 | the validation result of one bill line; `StatusDecision`, `PriceFoundFacts` and `FoundFields` state its properties |
| RateValidator.PriceFoundFacts | Combov1.py:866-899 | for a found code: the rate is recorded, the expected total is rate × quantity, the difference is billed − expected, the unit price is flagged exactly when it is more than 0.01 off, the line complies exactly when it is within 0.01, and the billed-mismatch remark does not survive |
| RateValidator.StatusDecision | Combov1.py:833-896 | SERVICE_CODE_NOT_FOUND exactly for an empty or `NOT_FOUND` code, SERVICE_NOT_IN_RATE_SHEET exactly for a code the scheme does not know, RATE_COMPLIANT exactly for a known code billed within 0.01 of rate × quantity; never PENDING; MATCHED exactly when compliant |
| RateValidator.UnknownSchemeFindsNothing | Combov1.py:845 | a scheme other than STANDARD and CGHS knows no code |
| RateValidator.FoundFields | Combov1.py:866-883 | the rate fields are filled in exactly when the code is found; the unit-price flag is independent of compliance; otherwise no rate, expected total or name is set |
| RateValidator.CaseInsensitiveRewrite | Combov1.py:848-857 | a code found only up to case is rewritten to the first matching key in table order, and that key's rate is used |
| RateValidator.CodeKeptUnlessRewritten | Combov1.py:817-864 | the code keeps its spelling unless it was found only up to case |
| RateValidator.ToleranceBoundary | Combov1.py:882-892 | at a difference of exactly 0.01 (rate 0.0, unit price and total 0.01, values whose differences are the same in double precision) the total is non-compliant, but the unit price is not flagged |
| RateValidator.ZeroQuantityComplies | Combov1.py:840-887 | the quantity is used as given: quantity 0 with nothing billed complies for any known code |
| RateAudit.AuditOutcome | Combov1.py:965-976 | the status-to-outcome chain; `AuditOutcomeIff` states it |
| RateAudit.AuditOutcomeIff | Combov1.py:965-976 | MATCH exactly for RATE_COMPLIANT, AMOUNT_MISMATCH exactly for RATE_NON_COMPLIANT, UNSUPPORTED_BILLING for every other status, known or not |
| RateAudit.PerformRateValidationAudit | Combov1.py:914-979 | one audit row per item, in order, validated under the scheme of the header's company with the source's field defaults |
| RateAudit.AuditRowOf | Combov1.py:922-976 | the audit row of one item, with the item's `.get` defaults and the validation's; `RowOutcome` and `RowKeepsBilledCode` state its properties |
| RateAudit.RowOutcome | Combov1.py:965-976 | a row's outcome is MATCH exactly when it is MATCHED and compliant, AMOUNT_MISMATCH exactly when non-compliant, and UNSUPPORTED_BILLING exactly when the code is missing or unknown |
| RateAudit.RowKeepsBilledCode | Combov1.py:943-951 | the row shows the code as billed, even when the validator rewrote it, and an expected total of 0 when no rate was found |
| Leakage.NoKnownOutcomeNoLeak | Combov1.py:1124-1143 | rows whose outcomes are none of the three analysed ones contribute no leakage |
| Leakage.LeakageByType | Combov1.py:1123-1132 | the outcome loop yields the by-type dictionary and the total leakage |
| Leakage.OutcomeKeys | Combov1.py:1114-1128 | the lower-cased outcomes are `unsupported_billing`, `amount_mismatch` and `potential_missing_charge`, which differs from the created key `potential_missing_charges` |
| Leakage.ByType | Combov1.py:1110-1132 | the by-type dictionary; `ByTypeValues` and `ByTypeWithoutOutcomes` state its values |
| Leakage.ByTypeValues | Combov1.py:1110-1132 | with an outcome column, unsupported and mismatch hold their totals, `potential_missing_charge` holds the missing-charge total, `potential_missing_charges` stays 0, and the total leakage is unsupported plus mismatch |
| Leakage.ByTypeWithoutOutcomes | Combov1.py:1110-1125 | without an outcome column every type stays 0, and so does the total leakage |
| Leakage.UniqueFacts | Combov1.py:1136 | `unique()` lists every category of the table, and only those, once each |
| Leakage.ByCategory | Combov1.py:1134-1143 | the by-category entries, or a failure for a table with categories and rows but no outcome or no billed-amount column; `ByCategoryFacts` and `ByCategoryIff` state its properties |
| Leakage.ByCategoryFacts | Combov1.py:1135-1143 | each entry is a listed category with its positive leak, and each listed category with a positive leak has an entry, once |
| Leakage.LeakageByCategory | Combov1.py:1134-1143 | the category loop yields the by-category entries, or fails when the table has categories and rows but no outcome or no billed-amount column |
| Leakage.ByCategoryIff | Combov1.py:1135-1143 | a category has an entry exactly when it occurs in the table and its unsupported-plus-mismatch amount is positive, and the entry holds that amount |
| Leakage.GenerateRecommendations | Combov1.py:1150-1238 | the issues are those of the three by-type amounts read under the created keys; the recommendations are the type ones, then the category ones, then the two baseline ones, so the list always ends with the two baseline entries |
| Leakage.AppendCategoryRecommendations | Combov1.py:1209-1217 | the category loop appends one review per category whose leak exceeds 10000 |
| Leakage.IssuesFor | Combov1.py:1154-1207 | the priority issues of three by-type amounts; `IssuesIff` and `IssuesOrdered` state its properties |
| Leakage.IssuesIff | Combov1.py:1161-1207 | each kind of issue is raised exactly when its amount is positive |
| Leakage.IssuesOrdered | Combov1.py:1161-1207 | each issue carries the amount of its kind, and the issues come in the order HIGH_RISK, MEDIUM_RISK, REVENUE_OPPORTUNITY, each at most once |
| Leakage.CategoryRecommendationsFacts | Combov1.py:1209-1217 | there are exactly as many reviews as entries whose leak exceeds 10000, and significant entry i's review, named after its category, is at position "number of significant entries before i"; so there is one review per such entry, in entry order, and nothing else |
| Leakage.SignificantCountSize | Combov1.py:1210 | the count of significant entries is the size of the set of positions whose leak exceeds 10000 |
| Leakage.ReviewCount | Combov1.py:1209-1217 | the loop appends one review per entry whose leak exceeds 10000 and no other |
| Leakage.ReviewAt | Combov1.py:1209-1217 | a significant entry's review comes after the reviews of the significant entries before it |
| Leakage.ReviewMembers | Combov1.py:1209-1217 | every review names an entry whose leak exceeds 10000 |
| Leakage.CalculateMoneyLeakage | Combov1.py:1107-1148 | the analysis holds the total billed, the total leakage, the by-category and by-type results and the recommendations; it fails exactly when the table has no `billed_amount` column (the KeyError at :1111), or has categories but no outcome column and at least one row (the KeyError at :1139) |
| Leakage.MissingChargesNeverReported | Combov1.py:1157-1159 | as written, with an outcome column, no revenue-opportunity issue is ever raised |
| Leakage.MissingChargeExample | Combov1.py:1124-1159 | one missing-charge row of 500.00: its total is positive, yet no revenue-opportunity issue is raised |
| Leakage.IntendedReportsMissingCharges | Combov1.py:1194-1207 | reading the missing-charge amount under the key the loop writes, a revenue-opportunity issue is raised exactly when the missing-charge total is positive |

## Left out

- PDF text extraction with `fitz`. The parser takes each page's lines, and `ParseHospitalBill` takes each page's text.
- The Streamlit interface, session state and charts. These are presentation only.
- Network calls to the file upload and analysis services, with their retries and sleeps. These are foreign services, time and I/O.
- Reading the rate card from Excel or CSV. The loader takes the rows as values, or None when the file is missing or unreadable.
- Temporary files and their clean-up.
- The regular expressions of the concession fields and advance rows. Each is a function parameter returning the matched amount literal, or the matched date, reference and amount.
- JsonScan.ExtractJsonCandidate: returns the candidate text rather than the parsed object. The fenced-block regex and `json.loads` of `extract_json_from_text` are left out.
- `float()` of an amount never fails here. The pattern guarantees digits, commas, a point and two digits, so the `ValueError` branches at Combov1.py:240-241 and 291-292 cannot be taken.
- IEEE floating point. Amounts, rates and sums are exact reals, so rounding in `sum()`, in rate × quantity, in the subtractions and in the 0.01 tolerance tests (Combov1.py:882, 886) is not modelled; for example 100.01 − 100.0 exceeds 0.01 in double precision, so the program flags that unit price while the model, computing exactly, does not.
- Leakage.IssuesFor: keeps the amount an issue's description formats, not the formatted text with its thousands separators.
- RateValidator.ValidateRate: keeps the remarks as a datatype of the message and the values it shows, not the formatted string.
- The compliance rate and the leakage percentage in the interface are not modelled.
- Python's `\d` in the date and amount patterns (Combov1.py:180-182, 206) and `float()` accept every Unicode decimal digit; the model accepts the ASCII digits `0`-`9` only, so dates and amounts written in other scripts' digits are not modelled.
- `upper()`, `lower()` and `title()` act on ASCII letters only. Other characters are kept, so Unicode case mapping is not modelled.
- `strip()` and `split()` use Python's whitespace code points.
- RateAudit.PerformRateValidationAudit: on an empty item list the source raises a KeyError, because the empty DataFrame has none of the columns selected at Combov1.py:991; the model returns an empty table instead. The only caller returns before the audit when no line items were extracted (Combov1.py:1024-1026), so that path is never taken.
- DataFrame column order is not modelled. An audit row is a record with every column.
- A dictionary key that is present but holds `None` is not modelled. `RateAudit.LineItem` distinguishes only a present value from an absent key.
- `RateValidator` is modelled as values rather than a class. Its only field, `rate_sheet`, is set once in `__init__` and never changed, so `ValidateRate` takes the loaded sheet as a parameter.
- pandas NaN values in the audit table are not modelled. The table is a list of rows with a category, an outcome and a billed amount, plus flags for whether the billed-amount, outcome and category columns exist.

## Findings

| source | as written | input that shows it | evidently intended | confidence | as-written member | corrected member |
|---|---|---|---|---|---|---|
| Combov1.py:1117 | `leakage_by_type` is created with the key `potential_missing_charges`. The outcome loop writes `outcome.lower()`, which is `potential_missing_charge`. `generate_recommendations` reads the plural key, which stays 0. | An audit table with an `audit_outcome` column and one row `POTENTIAL_MISSING_CHARGE` billed 500.00 | The REVENUE_OPPORTUNITY issue is raised when the missing-charge total is positive | high; not executed | Leakage.MissingChargesNeverReported | Leakage.IntendedReportsMissingCharges |

`Leakage.MissingChargeExample` gives the concrete input. `Leakage.IntendedMissingAmount` reads the amount under the key the loop writes. `Leakage.CalculateMoneyLeakage` keeps the behaviour as written.
