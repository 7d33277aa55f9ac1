# klarbill core, modelled in Dafny

klarbill is a chat assistant for German utility bills (electricity invoices in the
"Abrechnung" JSON layout). A customer asks questions about an invoice. The
assistant reads facts off the invoice document, classifies the question, finds
knowledge-base entries, compares with the previous invoice, builds a prompt for a
local language model, and shapes the answer for the web front-end. An older
service and an older endpoint answer from rules, templates and a calculator before
they fall back to the model.

This project models the deterministic part of that core and proves what it
promises. The language model, the invoice store, vector search and the tokeniser
are parameters (uninterpreted functions). Every module is one file:

| file | module | models |
|---|---|---|
| wrappers.dfy | `Wrappers` | `Option` and `Result` (a value or the Python exception raised) |
| errors.dfy | `Errors` | the Python exceptions involved and the text `str(e)` gives for each |
| text.dfy | `Text` | `str.lower`, `strip`, `split`, `in`, `replace`, `str(int)` on code points |
| pattern.dfy | `Pattern` | the fragment of `re.search` the query classifier uses |
| json.dfy | `Json` | decoded JSON, `d.get`, lenient path access, `float(x)`, truthiness |
| invoice_store.dfy | `InvoiceStore` | the record filter of `fetch_invoice_data` |
| analyzer.dfy | `InvoiceAnalyzer` | `IntelligentInvoiceAnalyzer`: consumption, prices, levies, anomalies, cost breakdown |
| query_analyzer.dfy | `QueryAnalyzer` | `ContextualQueryAnalyzer.analyze_query` |
| knowledge_base.dfy | `KnowledgeBase` | `KnowledgeBaseIntegrator`: category routing and `find_relevant_context` |
| comparison.dfy | `Comparison` | `compare_with_previous_invoice` |
| prompt.dfy | `ContextualPrompt` | `build_contextual_prompt`, as its sequence of blocks |
| assistant.dfy | `Assistant` | `AgenticUtilityBillLLM.get_response` |
| calculator.dfy | `Calculator` | `calculate_expression` of the older service |
| legacy_data.dfy | `LegacyData` | `flatten_json` and `truncate_by_token_limit` |
| legacy_rules.dfy | `LegacyRules` | templates, ID recognisers, escalation, `check_knowledge`, `build_prompt`, `format_response` of the older service |
| legacy_service.dfy | `LegacyService` | the conversation and rule order of the older service's `get_response` |
| backend_service.dfy | `BackendService` | backend/llm_service.py |
| api.dfy | `Api` | backend/app.py: log-path sanitiser, `customer_name`, `chat_route` |
| chat_gate.dfy | `ChatGate` | app.py: `ask_question` |

llm_service_example.py is byte-for-byte the same as llm_service.py. Every row below that
cites llm_service.py covers the same lines of llm_service_example.py.

Code that changes state in place is modelled in imperative Dafny:
- the accumulating loops of the analyzer;
- the ranking and sorting of `find_relevant_context`;
- the search loop of the comparison;
- the token list that the calculator pops;
- the conversation objects of both chat services;
- the reply building of `chat_route`.

Each of these methods is proved equal to a specification function. The properties
are proved about those functions.

## Model

| member | source | states |
|---|---|---|
| Text.Lower | backend/agentic_llm_service.py:470 | `str.lower()` on a character keeps whitespace as whitespace, leaves small letters alone and maps ASCII capitals to small letters |
| Text.LowerStr | backend/agentic_llm_service.py:470 | `str.lower()` maps each character, keeping the length |
| Text.LowerStrIdempotent | backend/agentic_llm_service.py:470 | lowering twice is lowering once |
| Text.IndexFrom | backend/agentic_llm_service.py:496 | the search finds the leftmost occurrence at or after the start, and none means there is none |
| Text.IndexOf | backend/agentic_llm_service.py:496 | the leftmost occurrence, or none exactly when there is no occurrence |
| Text.Contains | backend/agentic_llm_service.py:496 | `sub in s` holds exactly when `sub` occurs somewhere in `s` |
| Text.ContainsSlice | backend/agentic_llm_service.py:496 | every slice of a string is in it |
| Text.ContainsEmpty | backend/agentic_llm_service.py:496 | the empty string is in every string |
| Text.ContainsLonger | backend/agentic_llm_service.py:496 | a string longer than `s` is not in `s` |
| Text.ContainsWithin | backend/agentic_llm_service.py:496 | what is in a part is in the whole |
| Text.BeforeFirst | backend/agentic_llm_service.py:535 | `s.split('?')[0]` is the prefix of `s` before the first '?', holding none |
| Text.TrimStart | llm_service.py:207 | the `\s*` after `ID:` takes exactly the leading whitespace, so what follows starts with a non-space |
| Text.TrimEnd | llm_service.py:199 | the right half of `strip()` removes exactly the trailing whitespace |
| Text.Strip | llm_service.py:551 | `strip()` is a slice of `s` with no whitespace at either end and only whitespace removed |
| Text.StripSlice | llm_service.py:551 | a prefix of a suffix of `s` is a slice of `s` |
| Text.TrimStartSpaces | llm_service.py:207 | whitespace in front of a word is exactly what `\s*` takes |
| Text.StripUnchanged | llm_service.py:551 | a string with no whitespace at either end is its own `strip()` |
| Text.Concatenated | llm_service.py:496-529 | a concatenation starts with its first part and ends with its second |
| Text.JoinContains | llm_service.py:496-529 | every part occurs in the joined text |
| Text.WordLength | backend/agentic_llm_service.py:511 | a word of `split()` ends at the first whitespace or at the end |
| Text.WordsAreWords | backend/agentic_llm_service.py:511 | every word of `split()` is non-empty and holds no whitespace |
| Text.RemoveStarsFirst | llm_service.py:549 | removing `**` keeps a first character that is not a star |
| Text.RemoveStarsLeavesNone | llm_service.py:549 | after `replace('**', '')` no `**` is left |
| Text.RemoveStarsInsertion | llm_service.py:549 | inserting `**` anywhere leaves `replace('**', '')` unchanged |
| Text.BoldSplit | llm_service.py:549 | removing the stars around a bold run leaves the run and what follows it |
| Text.NoDoubleStarSlice | llm_service.py:549-551 | a slice of a text without `**` has none |
| Text.StripNoDoubleStar | llm_service.py:549-551 | stripping keeps a text free of `**` |
| Text.ReplaceChar | llm_service.py:29 | `replace(',', '.')` changes exactly the commas, and nothing else |
| Text.NatToString | backend/agentic_llm_service.py:895-896 | `str(n)` is a non-empty run of decimal digits |
| Text.Pow10 | backend/agentic_llm_service.py:603 | a power of ten is positive |
| Text.NatToStringRoundTrip | backend/agentic_llm_service.py:895-896 | the digits of `str(n)` spell `n` |
| Text.DigitRun | llm_service.py:23-81 | the leading digit run ends at the first non-digit |
| Text.ParseDecimal | llm_service.py:23-81 | text `float` accepts holds at least one digit and nothing but digits, points and a leading sign |
| Text.ParseUnsigned | llm_service.py:23-81 | an unsigned number is never negative, and the text holds a digit and only digits and points |
| Text.ParsePointedDecimal | llm_service.py:23-81 | digits, a point and digits (either run may be empty, not both) read as the whole part plus the fraction divided by ten to the number of its digits |
| Text.ParseSigned | llm_service.py:23-81 | a leading `+` leaves the value unchanged and a leading `-` negates it |
| Text.ParseNatText | llm_service.py:23-81 | `float(str(n)) == n`, and the same with a minus sign gives -n |
| Json.LookupFinds | backend/agentic_llm_service.py:156-160 | a key is found in a dictionary exactly when some field has it, and the value found is that field's |
| Json.PyGet | backend/agentic_llm_service.py:135 | `j.get(key, default)` fails (Python's `AttributeError`) exactly when `j` is not a dictionary, and gives the default for a missing key |
| Json.Field | backend/agentic_llm_service.py:156-160 | the analyzer's lenient access reads a node that is not a dictionary as null, and otherwise agrees with `get` |
| Json.NumberAt | backend/agentic_llm_service.py:169-183 | `float(d.get(key, 0))`: a missing key reads as 0 and a stored number as itself |
| Json.TextAt | backend/agentic_llm_service.py:185-191 | `d.get(key, "")`: a missing key reads as "" and stored text as itself |
| Json.NumberTextRoundTrip | backend/agentic_llm_service.py:164 | `float` of a whole number written in decimal is that number |
| Json.DigitTextValue | backend/agentic_llm_service.py:164 | `float` of a text of decimal digits is the number they spell |
| Json.ParseDigits | backend/agentic_llm_service.py:164 | decimal digits parse as the number they spell |
| Json.DigitRunAll | backend/agentic_llm_service.py:164 | a text of digits is one digit run |
| Json.StripDigits | backend/agentic_llm_service.py:164 | stripping leaves a text of digits unchanged |
| InvoiceAnalyzer.TotalConsumption | backend/agentic_llm_service.py:162-167 | the total is the sum of the `consumption` readings of the consumption data in item order (see `SumConsumptionAppend`, `ZeroConsumptionMeansNoReadings`), and the period comes from `invoicePeriodFrom`/`invoicePeriodTo` of the process data and from nowhere else |
| InvoiceAnalyzer.SumConsumptionAppend | backend/agentic_llm_service.py:164 | the total grows by exactly each item's `consumption` (0 when missing), in item order |
| InvoiceAnalyzer.ZeroConsumptionMeansNoReadings | backend/agentic_llm_service.py:225-228 | with no negative readings the total is non-negative, and the bill is a zero-consumption bill exactly when every reading is 0 |
| InvoiceAnalyzer.WorkingPrice | backend/agentic_llm_service.py:193-197 | the price in €/kWh times 100 is the tariff's `currentWorkPrice` in ct/kWh |
| InvoiceAnalyzer.FirstBaseCharge | backend/agentic_llm_service.py:201-205 | the index found is a `BASIC_RATE` "Grundkosten" item with none before it; none found means no such item exists |
| InvoiceAnalyzer.FirstBaseChargeAt | backend/agentic_llm_service.py:201-205 | a basic-charge item with no basic-charge item before it is the one the loop stops at |
| InvoiceAnalyzer.BasePrice | backend/agentic_llm_service.py:199-210 | the net price is the amount of the first basic-charge item (0 without one), the gross price is `currentBasePrice` |
| InvoiceAnalyzer.EveryLevyListed | backend/agentic_llm_service.py:232-238 | the levy table has a key for each of the five levies |
| InvoiceAnalyzer.KwkgAmount | backend/agentic_llm_service.py:213-223 | the result is the sum of the amounts of all detail positions whose name contains "KWKG", items without a detail block skipped |
| InvoiceAnalyzer.AddKwkgPositions | backend/agentic_llm_service.py:219-222 | the inner loop adds exactly the KWKG positions of one detail block to the running total |
| InvoiceAnalyzer.LevyTable | backend/agentic_llm_service.py:232-238 | the table has exactly the five levy keys, each holding the amount booked to it |
| InvoiceAnalyzer.LevyTableUnique | backend/agentic_llm_service.py:232-258 | any table with those keys and amounts is the levy table: the result is determined by the positions |
| InvoiceAnalyzer.LevyTableStep | backend/agentic_llm_service.py:249-258 | `levies[name] += amount` for the first matching levy (or no change) keeps the table exact for one more position |
| InvoiceAnalyzer.BookLevyPositions | backend/agentic_llm_service.py:245-258 | the inner loop books every position of one detail block to its levy |
| InvoiceAnalyzer.SpecificLevyAmounts | backend/agentic_llm_service.py:230-259 | the result is the levy table of all detail positions of all billing items, in order |
| InvoiceAnalyzer.KwkgLevyIsKwkgAmount | backend/agentic_llm_service.py:213-223 | the KWKG levy equals `get_kwkg_amount`, because "KWKG" is the first keyword tried |
| InvoiceAnalyzer.LeviesPartition | backend/agentic_llm_service.py:250-259 | the five levies add up to the sum of all positions some keyword claims: each position counts at most once and unmatched ones are dropped |
| InvoiceAnalyzer.UnclaimedLevyIsZero | backend/agentic_llm_service.py:232-238 | a levy no position is booked to stays at its initial 0 |
| InvoiceAnalyzer.HighBasicCharges | backend/agentic_llm_service.py:264-274 | every anomaly listed is a high basic charge with an amount above 100, at most one per item |
| InvoiceAnalyzer.HighBasicChargesSound | backend/agentic_llm_service.py:264-274 | every listed charge is the amount of some basic-rate item above 100 |
| InvoiceAnalyzer.HighBasicChargesComplete | backend/agentic_llm_service.py:264-274 | there are exactly as many charges as basic-rate items above 100, and each such item's charge sits at the position given by the number of such items before it (item order) |
| InvoiceAnalyzer.ScanBasicCharges | backend/agentic_llm_service.py:265-274 | the first loop lists the basic-rate items above 100 in item order |
| InvoiceAnalyzer.ScanUsageCharges | backend/agentic_llm_service.py:277-278 | the result is true exactly when every usage-rate item is charged 0, vacuously so without usage items |
| InvoiceAnalyzer.UnusualCharges | backend/agentic_llm_service.py:261-284 | the anomalies are the high basic charges followed by the zero-usage anomaly exactly when all usage charges are 0 |
| InvoiceAnalyzer.ZeroUsageReportedLast | backend/agentic_llm_service.py:276-282 | the zero-usage anomaly is present exactly when all usage charges are 0, and then it is last; every other anomaly is a basic charge above 100 |
| InvoiceAnalyzer.ZeroConsumptionWithUsageCharge | backend/agentic_llm_service.py:225-228 | a bill with zero consumption and a charged usage item gets no zero-usage anomaly: the two notions are independent |
| InvoiceAnalyzer.CostBreakdown | backend/agentic_llm_service.py:286-319 | each bucket holds the amount and percentage of the last cost block filed under it, and the bonus is `bonus` |
| InvoiceAnalyzer.EmptyCategoryIsZero | backend/agentic_llm_service.py:288-293 | a bucket no block is filed under keeps 0 and 0 |
| InvoiceAnalyzer.LastBlockWins | backend/agentic_llm_service.py:300-312 | a later block filed under the same bucket overwrites the earlier one instead of adding to it |
| InvoiceAnalyzer.LevySumAppend | backend/agentic_llm_service.py:244-257 | a position adds its amount to exactly the one levy its name is booked under, in the order KWKG, Offshore, Konzessionsabgabe, NEV, Stromsteuer |
| InvoiceAnalyzer.KwkgSumAppend | backend/agentic_llm_service.py:220-222 | a position adds its amount to the KWKG total exactly when its name contains "KWKG" |
| InvoiceAnalyzer.AllDetailsStep | backend/agentic_llm_service.py:217-220 | the positions seen after one more billing item are those seen before, then that item's detailed positions |
| InvoiceAnalyzer.AddKwkgPosition | backend/agentic_llm_service.py:220-222 | one round of the inner loop keeps the total equal to the KWKG sum of the positions seen |
| InvoiceAnalyzer.BookLevyPosition | backend/agentic_llm_service.py:244-257 | one round of the inner loop keeps the table equal to the levy sums of the positions seen |
| QueryAnalyzer.ConcisenessLevel | backend/agentic_llm_service.py:371-379 | five words or fewer, or a how-much/total/amount/consumption/wieviel keyword, gives brief; otherwise an explain/detail/breakdown/why/understand/erkläre/aufschlüsseln keyword, and only that, gives detailed |
| QueryAnalyzer.AnalyzeQuery | backend/agentic_llm_service.py:368-436 | first match in the order greeting, explanation, navigation, simple fact, calculation, comparison, default explanation (each type exactly when its group matches and no earlier one does); greeting is brief, navigation/calculation/comparison and a matched explanation moderate, simple fact and the default use the computed level; only calculation sets `detailed_calculation`, only a matched explanation sets `include_regulatory_context`; `concise` holds for everything except navigation and a matched explanation |
| QueryAnalyzer.ThisIsAGreeting | backend/agentic_llm_service.py:381-382 | the greeting test is a substring test, so "this" is a greeting |
| QueryAnalyzer.ExplainBeforeCalculation | backend/agentic_llm_service.py:389-396 | a question containing "explain" is an explanation even when it asks how something was calculated |
| QueryAnalyzer.ExplainIsExplanation | backend/agentic_llm_service.py:357-362 | "explain" anywhere in the text matches the explanation patterns |
| Pattern.InOrderCorrect | backend/agentic_llm_service.py:327-362 | the leftmost-occurrence matcher for `a.*b.*c` accepts exactly when the literals occur in order without overlapping |
| Pattern.LeftmostSuffices | backend/agentic_llm_service.py:327-362 | taking the leftmost occurrence of the first literal loses no match of the rest of the chain |
| Pattern.InOrderSpecSuffix | backend/agentic_llm_service.py:327-362 | a chain found in a suffix of the text is found in the text |
| Pattern.ContainsAroundBreak | backend/agentic_llm_service.py:327-362 | a literal without a line break occurs in the text exactly when it occurs before or after a given line break, as `.` does not cross lines |
| Pattern.InOrderSingle | backend/agentic_llm_service.py:357-362 | on one line a one-literal chain matches exactly when the literal occurs |
| Pattern.SearchLiteral | backend/agentic_llm_service.py:357-362 | for a literal without a line break `re.search` is the substring test |
| Pattern.ContainsInSlice | backend/agentic_llm_service.py:327-362 | a keyword found within one line of the text is found in the whole text |
| KnowledgeBase.KeywordHits | backend/agentic_llm_service.py:496 | a category never counts more keyword hits than it has keywords |
| KnowledgeBase.PositiveScores | backend/agentic_llm_service.py:494-501 | the scores dictionary has at most one entry per category of the table |
| KnowledgeBase.ScoreCategories | backend/agentic_llm_service.py:494-501 | the scoring loop builds exactly the dictionary of categories with a positive score (2 per keyword substring, +5 for the category name with spaces), in table order |
| KnowledgeBase.PositiveScoresFrom | backend/agentic_llm_service.py:494-501 | every dictionary entry is a table category paired with its own score, and that score is positive |
| KnowledgeBase.PositiveScoresEmpty | backend/agentic_llm_service.py:500-506 | the dictionary is empty exactly when every category scores 0 |
| KnowledgeBase.FirstMax | backend/agentic_llm_service.py:505 | `max(scores, key=scores.get)`: the chosen entry's score is at least every score, and strictly above every earlier one (ties go to the first); the loop finds the position `FirstMaxIndex` names |
| KnowledgeBase.FirstMaxIndex | backend/agentic_llm_service.py:505 | the position of the first largest score of a non-empty dictionary |
| KnowledgeBase.FirstMaxUnique | backend/agentic_llm_service.py:505 | only one position holds the first largest score |
| KnowledgeBase.PrimaryCategory | backend/agentic_llm_service.py:500-506 | the lower-cased question's category is 'miscellaneous' when no category scores, and otherwise the category at the first largest score |
| KnowledgeBase.CategoryForQuery | backend/agentic_llm_service.py:464-506 | the lower-cased question routes to the first highest-scoring category, or to 'miscellaneous' when none scores; this is `PrimaryCategory` of the lower-cased question |
| KnowledgeBase.KeptPresent | backend/agentic_llm_service.py:520-540 | every entry collected by a pass is one the pass admitted |
| KnowledgeBase.InsertMultiset | backend/agentic_llm_service.py:564 | inserting into the sorted list keeps every entry (multiset) |
| KnowledgeBase.InsertSorted | backend/agentic_llm_service.py:564 | inserting keeps the list in non-increasing score order |
| KnowledgeBase.InsertStable | backend/agentic_llm_service.py:564 | inserting keeps the order of entries of equal score |
| KnowledgeBase.SortByScoreFacts | backend/agentic_llm_service.py:564 | `sort(key=score, reverse=True)` is sorted by non-increasing score, is a permutation, and is stable (each score's entries keep their order) |
| KnowledgeBase.PyPrefix | backend/agentic_llm_service.py:565 | `items[:max_items]` has length min(n, len) for n >= 0 and len+n (at least 0) for negative n, and is a prefix of the list |
| KnowledgeBase.CollectHits | backend/agentic_llm_service.py:518-540 | the loop over one category's entries appends exactly the admitted entries, in order |
| KnowledgeBase.CollectBackfill | backend/agentic_llm_service.py:543-561 | the pass over the other categories, skipping the primary one, appends exactly their admitted entries, in knowledge-base order |
| KnowledgeBase.FindRelevantContext | backend/agentic_llm_service.py:508-566 | the result is `RelevantContext` for the primary category `get_category_for_query` gives the question (`PrimaryCategory` of the lower-cased question): primary hits, then backfill only when fewer than `max_items`, sorted, cut to `max_items` |
| KnowledgeBase.RelevantContextFacts | backend/agentic_llm_service.py:563-565 | at most `max_items` entries, highest score first, all drawn from the collected candidates |
| KnowledgeBase.HitsAreAdmitted | backend/agentic_llm_service.py:520-561 | every entry a pass keeps satisfies that pass's relevance rule |
| KnowledgeBase.HitAdmitted | backend/agentic_llm_service.py:522-561 | an admitted entry carries its category and its `input_<lang>` text; a primary entry overlaps in more than 2 words or its text before the first '?' occurs in the question; a backfill entry overlaps in more than 1 word and is never 'high' |
| KnowledgeBase.HitList | backend/agentic_llm_service.py:520-540 | one verdict per entry of the category, each that entry's own, in order |
| KnowledgeBase.KeptStep | backend/agentic_llm_service.py:528-540 | one more entry appends its hit, if it is admitted, to the entries kept so far |
| Comparison.DayTextRange | backend/agentic_llm_service.py:603 | a day field `strptime` accepts for `%d` has a value from 1 to 31 |
| Comparison.MonthTextRange | backend/agentic_llm_service.py:603 | a month field accepted for `%m` has a value from 1 to 12 and no leading space |
| Comparison.ShortDigitsValue | backend/agentic_llm_service.py:603 | a one- or two-digit field has its decimal value |
| Comparison.ParseDate | backend/agentic_llm_service.py:603 | `strptime(s, "%d.%m.%Y")` only yields real calendar dates (leap years included) with a year from 1 to 9999 |
| Comparison.DateFields | backend/agentic_llm_service.py:603 | the fields between the dots only yield a real calendar date |
| Comparison.DigitsValueBound | backend/agentic_llm_service.py:603 | a k-digit field is below 10^k |
| Comparison.Digits | backend/agentic_llm_service.py:603 | the zero-padded form has exactly k digits |
| Comparison.DigitsRoundTrip | backend/agentic_llm_service.py:603 | a number below 10^k reads back from its k-digit form |
| Comparison.BeforeFirstDot | backend/agentic_llm_service.py:603 | the day field ends at the first dot |
| Comparison.SplitAtDots | backend/agentic_llm_service.py:603 | a text built from dot-free fields splits back into those fields |
| Comparison.TwoDigitDay | backend/agentic_llm_service.py:603 | every day 1..31, written with two digits, is a valid `%d` field |
| Comparison.TwoDigitMonth | backend/agentic_llm_service.py:603 | every month 1..12, written with two digits, is a valid `%m` field |
| Comparison.FieldsRoundTrip | backend/agentic_llm_service.py:603 | the two-, two- and four-digit fields of a calendar date read back as that date |
| Comparison.ParseFormatRoundTrip | backend/agentic_llm_service.py:603 | every calendar date of a four-digit year reads back from its `dd.mm.yyyy` form |
| Comparison.ReasonsFor | backend/agentic_llm_service.py:633-649 | a higher or lower consumption reason exactly when the difference is positive or negative; a price-increase reason exactly when the amount rose and consumption did not; a bonus reason exactly when the bonuses differ; consumption comes first, bonus last, nothing else and nothing twice |
| Comparison.CollectOk | backend/agentic_llm_service.py:609-612 | when no record's date fails, every record's date is read, in store order |
| Comparison.CollectErr | backend/agentic_llm_service.py:609-612 | a failure is the first record's failure, and every earlier record's date was read |
| Comparison.CollectStep | backend/agentic_llm_service.py:609-612 | one more readable record appends its date |
| Comparison.CollectStepErr | backend/agentic_llm_service.py:609-612 | the first unreadable record stops the loop with its own error |
| Comparison.CollectPrefixErr | backend/agentic_llm_service.py:609-612 | once a record fails, later records change nothing |
| Comparison.RecordDateResults | backend/agentic_llm_service.py:609-612 | one date result per record, each record's own, in store order |
| Comparison.PreviousUnique | backend/agentic_llm_service.py:614-617 | at most one index is the previous invoice |
| Comparison.LatestBefore | backend/agentic_llm_service.py:606-617 | nothing is found exactly when no date is before the current one; otherwise the index holds the latest earlier date, the first such on ties; the loop's result is `PreviousIndex` |
| Comparison.PreviousIndex | backend/agentic_llm_service.py:606-617 | none exactly when no date is before the current one; otherwise the index of the latest earlier date, the first such on ties |
| Comparison.ReadDate | backend/agentic_llm_service.py:610-612 | a record's date comes from its `Data` dictionary, and a record that is not a dictionary raises |
| Comparison.ReadDates | backend/agentic_llm_service.py:609-612 | the loop reads every record's date in store order, or stops with the first failure |
| Comparison.CompareWithPreviousInvoice | backend/agentic_llm_service.py:600-659 | an unreadable current date raises first, then the first unreadable record date; otherwise `found: False` exactly when no invoice is dated earlier, and else the comparison against the latest earlier invoice (its amounts, differences, reasons and period); the method returns `PreviousComparison` |
| Comparison.PreviousComparison | backend/agentic_llm_service.py:600-659 | the result of `compare_with_previous_invoice` as a value: the current date's error, else the first record date's error, else not found exactly when no invoice is dated earlier, else the comparison against the latest earlier invoice |
| ContextualPrompt.LangCodes | backend/agentic_llm_service.py:694-718 | exactly "en" and "de" have an instruction; any other code raises `KeyError` naming the code |
| ContextualPrompt.SalutationCases | backend/agentic_llm_service.py:667-677 | German keeps the stored salutation; English gives "Ms." exactly for "frau" and "Mr." exactly for "herr" (any case), else "Dear" |
| ContextualPrompt.HighResponses | backend/agentic_llm_service.py:815-817 | at most two responses, exactly those of the highly relevant hits among the first two |
| ContextualPrompt.ChangePercent | backend/agentic_llm_service.py:843 | the percentage raises `ZeroDivisionError` exactly when the previous amount is 0; otherwise percent × previous = difference × 100 |
| ContextualPrompt.HeaderOf | backend/agentic_llm_service.py:716-747 | the system instruction opens with the customer, invoice and tariff header |
| ContextualPrompt.BreakdownOf | backend/agentic_llm_service.py:750-758 | the invoice breakdown block follows the header |
| ContextualPrompt.MentionsOf | backend/agentic_llm_service.py:772-802 | each term note's trigger is exactly its substring test on the lower-cased question ("kwkg"; "working price" or "arbeitspreis"; "base price" or "grundpreis"; "konzessionsabgabe") |
| ContextualPrompt.TopicNotes | backend/agentic_llm_service.py:760-810 | the optional notes are all notes |
| ContextualPrompt.TopicNotesWhen | backend/agentic_llm_service.py:760-810 | the zero-consumption, KWKG, working-price, base-price and concession notes each appear exactly when their condition holds, with the invoice's own figures |
| ContextualPrompt.TopicNotesOnly | backend/agentic_llm_service.py:760-810 | no other note is written, and none with other figures |
| ContextualPrompt.OnlyAllowed | backend/agentic_llm_service.py:760-810 | the notes appended one after another stay among the allowed ones |
| ContextualPrompt.NoteIf | backend/agentic_llm_service.py:761 | a conditional note is present exactly when its condition holds, and nothing else is |
| ContextualPrompt.KnowledgeSection | backend/agentic_llm_service.py:813-817 | the heading appears exactly when some hit is highly relevant, and a response line exactly for a highly relevant hit among the first two |
| ContextualPrompt.Lines | backend/agentic_llm_service.py:815-817 | one response line per kept response, in order |
| ContextualPrompt.Closing | backend/agentic_llm_service.py:820-845 | a simple-fact question asking to "aufschlüsseln" gets the cost breakdown; otherwise a comparison question with a found previous invoice gets the comparison with its percentage and first reason (none when there is no reason), and raises `ZeroDivisionError` when the previous amount is 0; otherwise nothing |
| ContextualPrompt.NotesOf | backend/agentic_llm_service.py:760-810 | the notes for a question are all notes |
| ContextualPrompt.AssembleMembers | backend/agentic_llm_service.py:716-856 | a note or knowledge block is in the prompt exactly when it is in its own part |
| ContextualPrompt.AssembleFrame | backend/agentic_llm_service.py:716-856 | the header comes first, the breakdown second, the question last |
| ContextualPrompt.PromptErrors | backend/agentic_llm_service.py:694-845 | an unknown language raises `KeyError`; otherwise only the comparison percentage can fail, with `ZeroDivisionError`, exactly when the comparison is shown with a previous amount of 0 |
| ContextualPrompt.PromptFrame | backend/agentic_llm_service.py:716-856 | every prompt opens with the header and the breakdown and closes with the question, in the requested language |
| ContextualPrompt.PromptNotes | backend/agentic_llm_service.py:760-810 | each note is in the prompt exactly when the bill has zero consumption or the question mentions its term, and carries the invoice's levy, working price or base price |
| ContextualPrompt.PromptKnowledge | backend/agentic_llm_service.py:813-817 | the prompt has the knowledge heading exactly when a hit is highly relevant, and exactly the highly relevant responses among the first two hits |
| ContextualPrompt.PromptParts | backend/agentic_llm_service.py:716-856 | the prompt's notes and knowledge blocks are exactly those of its parts |
| ContextualPrompt.BuildContextualPrompt | backend/agentic_llm_service.py:661-856 | the method writes the specified prompt, or raises the specified error |
| ContextualPrompt.HeadBlocks | backend/agentic_llm_service.py:666-758 | the header and breakdown come from the analyzer's getters |
| ContextualPrompt.NoteBlocks | backend/agentic_llm_service.py:760-810 | the notes written are the notes specified for the question and bill |
| ContextualPrompt.GatherNotes | backend/agentic_llm_service.py:760-810 | the five `if` statements append exactly the specified notes, in order |
| ContextualPrompt.TopicNotesParts | backend/agentic_llm_service.py:760-810 | the notes are the five optional notes in order |
| ContextualPrompt.ClosingBlocks | backend/agentic_llm_service.py:819-845 | the closing written is the specified one, or its error |
| ContextualPrompt.KnowledgeBlocks | backend/agentic_llm_service.py:812-817 | the knowledge part written is the specified one |
| ContextualPrompt.AnyHighScan | backend/agentic_llm_service.py:813 | the scan reports true exactly when some hit is highly relevant |
| ContextualPrompt.HighLines | backend/agentic_llm_service.py:815-817 | the loop over the first two hits writes one line per highly relevant response |
| InvoiceStore.FilterRecords | backend/agentic_llm_service.py:132-145 | the comprehension fails exactly when the chained `.get` raises for some record; otherwise it keeps exactly the records whose number equals the one asked for, all taken from the store |
| InvoiceStore.FilterRecordsInOrder | backend/agentic_llm_service.py:132-145 | the kept records are as many as the matching ones and keep store order: each matching record sits at the position given by the number of matching records before it |
| InvoiceStore.FetchInvoiceData | backend/agentic_llm_service.py:125-147 | the flag is true exactly when records are returned; a store that is not a dictionary, or no non-blank number, gives `(False, {})` |
| InvoiceStore.InvoiceNumberFirst | backend/agentic_llm_service.py:132-137 | a non-blank invoice number takes precedence: the customer number is not consulted |
| InvoiceStore.FetchByInvoice | backend/agentic_llm_service.py:132-137 | every record returned for an invoice number is a store record carrying exactly that number |
| InvoiceStore.FetchByInvoiceComplete | backend/agentic_llm_service.py:132-137 | on success, every store record carrying the invoice number is returned |
| Assistant.ChoiceCountShown | backend/agentic_llm_service.py:894-897 | the choice message, in either language, states the number of invoices found |
| Assistant.Index | backend/agentic_llm_service.py:891 | `v[key]` returns the stored value of a dictionary, raises `KeyError` for a missing key and `TypeError` for a value that is not a dictionary |
| Assistant.IndexPathLenient | backend/agentic_llm_service.py:891 | a strict lookup that succeeds agrees with the lenient reading of the same path |
| Assistant.Suggestions | backend/agentic_llm_service.py:890-893 | one invoice number per record, in order, each read strictly; otherwise the error of the first record whose lookup fails |
| Assistant.FailureShifts | backend/agentic_llm_service.py:890-893 | the first failing record of the tail is the first failing record of the list |
| Assistant.SuccessShifts | backend/agentic_llm_service.py:890-893 | the suggestions of the tail follow the first record's |
| Assistant.Context | backend/agentic_llm_service.py:874-877 | caller invoices are used as they are; otherwise the store's answer for the numbers given, found exactly when non-empty |
| Assistant.FirstInvoice | backend/agentic_llm_service.py:906 | no invoices give `{}`; a first record that is not a dictionary raises `AttributeError`; otherwise its `Data` field, or `{}` when it has none |
| Assistant.Route | backend/agentic_llm_service.py:874-916 | not found (exactly when nothing is found) comes first, then the choice exactly for a customer number alone matching several invoices whose numbers can be read, then the unreadable-invoice notice exactly when the first invoice is empty or falsy; a turn only proceeds with a found, non-empty invoice dictionary; the notices raise `KeyError` for an unknown language |
| Assistant.ChooseWhenSeveral | backend/agentic_llm_service.py:889-903 | a customer number alone matching several invoices always leads to the choice, with one suggestion per invoice, or to the error of reading their numbers |
| Assistant.CallerInvoicesFirst | backend/agentic_llm_service.py:874-876 | with caller invoices the store is not consulted |
| Assistant.Agent.constructor | backend/agentic_llm_service.py:578-584 | the conversation starts with no questions and in English |
| Assistant.Agent.GetResponse | backend/agentic_llm_service.py:866-989 | the question is appended to the conversation and its language recorded; the early returns follow the route; otherwise the answer is `AnswerFor` the found invoice, comparing among the turn's invoices or, for a customer number alone, all the customer's invoices; an unknown language always raises |
| Assistant.AnswerQuery | backend/agentic_llm_service.py:918-989 | the answer is `AnswerFor` the question and invoice |
| Assistant.AnswerFor | backend/agentic_llm_service.py:918-989 | a comparison is made exactly for a comparison question, it is `PreviousComparison` of the invoice among the invoices given, and its error is the turn's error; an unknown language always raises and any other question in a known language is answered; the text is the stripped reply of the model to the prompt built with the comparison and the three knowledge items `find_relevant_context` gives, with the 300/600/1200-token budget of the level; the structured facts are the analyzer's, filed under `get_category_for_query` of the question |
| Assistant.AnswerWith | backend/agentic_llm_service.py:936-989 | the answer is `AnswerFrom`: the prompt built with the knowledge items `find_relevant_context(query, language, 3)` gives, its error if it fails, and otherwise the model's stripped reply with the level's budget and the structured facts under the question's category |
| Assistant.PromptWithKnowledge | backend/agentic_llm_service.py:691 | the prompt is the one built with exactly the knowledge items `find_relevant_context(query, language, 3)` returns |
| Assistant.StructuredData | backend/agentic_llm_service.py:944-979 | the structured facts are those of the analyzer's getters, with the query's type and format, filed under `get_category_for_query` of the question |
| Assistant.RelevantContextBound | backend/agentic_llm_service.py:691 | the search asked for three items returns at most three |
| Calculator.Clean | llm_service.py:28 | the cleaned text keeps only digits, whitespace, operators, parentheses, points and commas, and is no longer than the input |
| Calculator.CleanKeepsInOrder | llm_service.py:28 | every such character survives, in order: the cleaned text is exactly as long as the number of such characters, and each sits at the position given by the number of such characters before it |
| Calculator.NumberLength | llm_service.py:34 | a number token `\d+\.?\d*` is non-empty and lies within the text |
| Calculator.NumberTokenParses | llm_service.py:34-71 | `float()` of every number token succeeds |
| Calculator.DigitRunPrefix | llm_service.py:34 | the digit run of a token is the digit run of the text it starts |
| Calculator.Expr | llm_service.py:36-37 | parsing never grows the token list |
| Calculator.AddLoop | llm_service.py:41-48 | the `+`/`-` loop never grows the token list |
| Calculator.Term | llm_service.py:50-61 | parsing a term never grows the token list |
| Calculator.MulLoop | llm_service.py:52-61 | the `*`/`/` loop never grows the token list |
| Calculator.Factor | llm_service.py:63-71 | a factor always consumes a token, and an empty list raises `IndexError` |
| Calculator.Outcome | llm_service.py:76-81 | a whole result is printed as an integer, any other as a fraction, and an exception as "Error in calculation: " and its message |
| Calculator.FactorPrint | llm_service.py:63-71 | `parse_number` evaluates a printed expression and consumes exactly it, whatever follows |
| Calculator.TermOfFactor | llm_service.py:50-61 | without a following `*` or `/` a term is its factor |
| Calculator.ExprOfTerm | llm_service.py:39-48 | without a following `+` or `-` an expression is its term |
| Calculator.GroupOf | llm_service.py:64-69 | a parenthesised group is the value of its inside, with the `)` consumed |
| Calculator.BinaryPrint | llm_service.py:39-69 | a printed binary expression evaluates to its value, with the rest left |
| Calculator.AdditivePrint | llm_service.py:39-48 | inside parentheses, `l + r` and `l - r` evaluate to the sum and difference and stop at the `)` |
| Calculator.AddStep | llm_service.py:41-48 | one round of the addition loop combines the value so far with the next term |
| Calculator.MultiplicativePrint | llm_service.py:50-61 | inside parentheses, `l * r` and `l / r` evaluate to the product and quotient (or the division error) and stop at the `)` |
| Calculator.MulStep | llm_service.py:52-61 | one round of the multiplication loop combines the value so far with the next factor |
| Calculator.ParsePrinted | llm_service.py:36-71 | the parser evaluates every printed expression to its value and consumes it all |
| Calculator.MultiplicationFirst | llm_service.py:39-61 | `*` binds tighter than `+` |
| Calculator.SubtractionLeftAssociative | llm_service.py:41-48 | `a - b - c` is `(a - b) - c` |
| Calculator.DivisionLeftAssociative | llm_service.py:52-61 | `a / b / c` is `(a / b) / c` |
| Calculator.MissingParenthesis | llm_service.py:67-69 | a missing `)` is tolerated |
| Calculator.LeftoverIgnored | llm_service.py:74 | tokens left after a complete expression are ignored |
| Calculator.DivisionByZero | llm_service.py:58-81 | dividing by zero reports "Error in calculation: Division by zero" |
| Calculator.ParsedFailure | llm_service.py:80-81 | an expression whose evaluation raises reports that exception's message |
| Calculator.NothingToCalculate | llm_service.py:64-81 | a text with no tokens reports "list index out of range" |
| Calculator.LeadingOperator | llm_service.py:71 | there are no unary operators: a leading operator fails `float()` with its own text |
| Calculator.TokenStream.ParseExpression | llm_service.py:36-48 | the method pops tokens exactly as the parsing function says and returns its value or exception |
| Calculator.TokenStream.ParseMultiplication | llm_service.py:50-61 | the same, for a term |
| Calculator.TokenStream.ParseNumber | llm_service.py:63-71 | the same, for a factor |
| Calculator.CalculateExpression | llm_service.py:24-81 | the method returns what `calculate_expression` computes for the text |
| Calculator.TokenStream.constructor | llm_service.py:34 | the parser starts on the token list of the cleaned text |
| LegacyData.Paths | llm_service.py:86-94 | every leaf reached through dictionaries and lists is a scalar |
| LegacyData.Under | llm_service.py:89-92 | descending into a child puts its key or index in front of each path |
| LegacyData.FieldPaths | llm_service.py:88-89 | the leaves under a dictionary's values are scalars |
| LegacyData.ItemPaths | llm_service.py:91-92 | the leaves under a list's items are scalars |
| LegacyData.Keyed | llm_service.py:89-94 | each leaf is written under its full path joined by dots |
| LegacyData.DottedAppend | llm_service.py:89-92 | one step down appends the key or index and a dot to the name |
| LegacyData.DottedJoin | llm_service.py:94 | `name[:-1]` of the name passed down is the path joined by dots |
| LegacyData.KeyedConcat | llm_service.py:88-92 | the writes of consecutive children are the writes of each, in order |
| LegacyData.KeyedUnder | llm_service.py:89-92 | a child's writes below its parent's path are its paths under its key |
| LegacyData.LeavesArePaths | llm_service.py:86-94 | `flatten` writes exactly one entry per scalar leaf, in walk order, keyed by the leaf's dotted path |
| LegacyData.FieldLeavesArePaths | llm_service.py:88-89 | the same for a dictionary's values, key by key |
| LegacyData.ItemLeavesArePaths | llm_service.py:91-92 | the same for a list's items, index by index |
| LegacyData.FlattenEdges | llm_service.py:86-95 | empty dictionaries and lists contribute nothing, and a bare scalar is stored under "" |
| LegacyData.ApplyConcat | llm_service.py:94 | writing two runs of entries is writing the first, then the second |
| LegacyData.WrittenKeys | llm_service.py:94 | the keys written are exactly the keys of the writes |
| LegacyData.ApplyKeys | llm_service.py:94 | after the writes the dictionary's keys are the old ones and the written ones |
| LegacyData.ApplyLastWrite | llm_service.py:94 | a key holds the value of its last write (dotted paths that collide keep the later leaf) |
| LegacyData.ApplyUntouched | llm_service.py:94 | a key no write touches keeps its value |
| LegacyData.Flattener.constructor | llm_service.py:85 | the output dictionary starts empty |
| LegacyData.Flattener.Flatten | llm_service.py:86-94 | the walk adds exactly the writes of the value's leaves to the output |
| LegacyData.Flattener.FlattenFields | llm_service.py:88-89 | the loop over a dictionary's keys adds exactly their leaves' writes |
| LegacyData.Flattener.FlattenItems | llm_service.py:91-92 | the loop over a list's indices adds exactly their leaves' writes |
| LegacyData.FlattenJson | llm_service.py:83-96 | the result is the empty dictionary after every leaf's write |
| LegacyData.FlattenKeys | llm_service.py:83-96 | the keys of `flatten_json(y)` are exactly the dotted paths of its scalar leaves |
| LegacyData.TruncateByTokenLimit | llm_service.py:98-112 | the result is a prefix of the lines within the budget that stops at the first line that would overflow it |
| LegacyData.TokensPrefix | llm_service.py:104-111 | a prefix of the lines has no more tokens than all of them |
| LegacyData.TruncationUnique | llm_service.py:104-112 | exactly one list meets that description |
| LegacyData.Overflow | llm_service.py:108-109 | any longer prefix is over the budget |
| LegacyRules.TemplatesFor | llm_service.py:159-178 | the template table has exactly "en" and "de"; indexing it with any other language raises `KeyError` |
| LegacyRules.IdPrefixed | llm_service.py:200-209 | `^ID:?\s*([A-Za-z0-9_-]{4,20})$` captures an ID token that ends the text and is preceded by "ID" and a separator |
| LegacyRules.SeparatorBefore | llm_service.py:207 | what is skipped between "ID" and the captured group is an optional ':' and whitespace |
| LegacyRules.IdPrefixedComplete | llm_service.py:207 | every "ID", separator, ID-token text is matched, and the group is the token alone |
| LegacyRules.ExtractCustomerId | llm_service.py:203-213 | the `ID`-prefixed form wins; otherwise the stripped input if it is itself an ID token; otherwise nothing; whatever is returned is an ID token |
| LegacyRules.RecognisedIffExtracted | llm_service.py:196-213 | an input is recognised as a customer ID exactly when an ID can be extracted from it |
| LegacyRules.ExtractDropsPrefix | llm_service.py:205-209 | "ID" followed by a token yields the token without the prefix, even though the whole input would pass as an ID |
| LegacyRules.AskForCustomerId | llm_service.py:188-194 | German gets the German request; every other language the English one |
| LegacyRules.DetectorsIgnoreCase | llm_service.py:342-473 | the escalation and invoice-data detectors ignore case, and every language but German uses the English triggers |
| LegacyRules.FirstAnswer | llm_service.py:490-493 | the index found is the first item whose lowered input occurs in the lowered question; none means no item's does |
| LegacyRules.NoInputAnswersEverything | llm_service.py:492 | an item without `input` matches every question (the empty string is in every string), so the lookup stops there |
| LegacyRules.CheckKnowledgeFirstMatch | llm_service.py:486-494 | the lookup returns the response of the earliest matching item, category by category |
| LegacyRules.LastTwo | llm_service.py:504 | `[-2:]` keeps the last two queries, or all when there are fewer |
| LegacyRules.UserLines | llm_service.py:505 | at most one line per query, each starting "User: " |
| LegacyRules.ContextParts | llm_service.py:508-514 | one part per present context, the invoice context first and the history last |
| LegacyRules.PromptFrame | llm_service.py:496-529 | the prompt fails exactly for a language without templates, with `KeyError`; otherwise it starts with the system text and ends with the question and "Answer:" |
| LegacyRules.PromptTextFramed | llm_service.py:522-529 | the prompt layout starts with the system text and ends with the question |
| LegacyRules.FramedBy | llm_service.py:522-529 | a concatenation starts with its head and ends with its tail |
| LegacyRules.HistoryLines | llm_service.py:503-505 | the history keeps at most two lines and ends with the latest non-empty query |
| LegacyRules.SecondTurnHistory | llm_service.py:503-505 | with only the empty initial query the history is the heading alone |
| LegacyRules.UserLinesLast | llm_service.py:505 | a non-empty last query gives the last line |
| LegacyRules.DropAnswer | llm_service.py:534 | `^Answer:\s*` removes the prefix and the whitespace after it, and nothing else; other text is unchanged |
| LegacyRules.RefRun | llm_service.py:537 | the `[\w\s-]*` run of a reference lies within the text |
| LegacyRules.HighlightWithoutReferences | llm_service.py:537 | a text without '§' is not changed by the highlighting |
| LegacyRules.HighlightUndone | llm_service.py:537-549 | removing `**` undoes the highlighting, whatever precedes it |
| LegacyRules.HighlightRef | llm_service.py:537-549 | the same, for a text that starts with a reference |
| LegacyRules.AddEmoji | llm_service.py:539-546 | a text with one of the four emoji is kept; otherwise at most one of the money bag, lightning or scroll is put in front with a space, the money bag whenever "price" or "cost" occurs |
| LegacyRules.FormatResponse | llm_service.py:531-551 | the steps run in the source's order: drop "Answer:", highlight, emoji, remove `**` for German, strip |
| LegacyRules.GermanWithoutMarkup | llm_service.py:548-551 | a German answer carries no `**` at all |
| LegacyRules.GermanIgnoresHighlighting | llm_service.py:537-549 | for German the highlighting leaves no trace |
| LegacyService.ShortIsNoFeedback | llm_service.py:18-258 | a reply of at most eight characters never contains a feedback phrase |
| LegacyService.AfterDigits | llm_service.py:274 | the `\d+` run ends within the text |
| LegacyService.AfterSpaces | llm_service.py:274 | the `\s*` run ends within the text |
| LegacyService.MathAt | llm_service.py:274 | a match of `\d+\s*[\+\-\*\/]\s*\d` starts on a digit and reaches a later digit |
| LegacyService.MathSearch | llm_service.py:274 | `re.search` finds the leftmost position where the pattern matches, and none means it matches nowhere |
| LegacyService.LineEnd | llm_service.py:274 | `.*` runs to the end of the line: no line break before it, and a line break or the end of text after it |
| LegacyService.MathGroup | llm_service.py:274-276 | the captured expression is non-empty and starts with a digit |
| LegacyService.KeepMath | llm_service.py:276 | the cleaned text holds only digits, `+ - * /`, parentheses and points, keeps every one of those the text had, and is never longer |
| LegacyService.Template | llm_service.py:259-286 | a template fails with `KeyError` exactly for a language without templates, and is otherwise the requested slot in that language |
| LegacyService.HandleNo | llm_service.py:338-340 | the reply to "no" is the greeting with an invitation, and fails exactly for a language without templates |
| LegacyService.KeptData | llm_service.py:304-307 | a truthy bill is kept; otherwise truthy kept data stays; otherwise the store's answer |
| LegacyService.UtilityBillAssistant.constructor | llm_service.py:181-187 | the conversation starts with empty queries and responses, no customer, English and no invoice data |
| LegacyService.UtilityBillAssistant.GetResponse | llm_service.py:248-319 | the turn records the previous query, the query, the language and the customer, and the reply and new state are those of the turn's specification (feedback, yes, then the other rules) |
| LegacyService.UtilityBillAssistant.Respond | llm_service.py:261-319 | after feedback and "yes": the query rules, then invoice data, then the knowledge base and the model |
| LegacyService.UtilityBillAssistant.RuleResponse | llm_service.py:265-286 | "no", greeting, arithmetic and escalation are tried in that order, and the first that applies answers |
| LegacyService.UtilityBillAssistant.HandleYesResponse | llm_service.py:321-336 | a "yes" after feedback, or after an answer offering customer service, escalates; otherwise the service asks itself for more information (corrected, see Findings) |
| LegacyService.UtilityBillAssistant.AnswerWithModel | llm_service.py:292-319 | a knowledge-base hit is formatted and remembered; otherwise the model answers |
| LegacyService.UtilityBillAssistant.AskModel | llm_service.py:298-319 | the invoice data is kept, the prompt is built from it, the retrieved text and the history, and the model's reply is remembered and formatted |
| LegacyService.UtilityBillAssistant.Generate | llm_service.py:313-319 | the model is asked with a 300-token budget, and its raw reply is remembered and the formatted one returned |
| LegacyService.UtilityBillAssistant.KeepInvoiceData | llm_service.py:304-307 | only the kept invoice data changes, to the data the turn works with |
| LegacyService.AnswerKeepsRecord | llm_service.py:261-319 | no rule after the recording changes the history, the language or the customer |
| LegacyService.ModelReplyKeepsRecord | llm_service.py:292-319 | the knowledge-base and model steps do not change the history, the language or the customer |
| LegacyService.TurnRecords | llm_service.py:252-336 | every turn records the previous query, the query, the language and the customer; a "yes" that asks for more information records that question as well |
| LegacyService.HandleYesRecords | llm_service.py:321-336 | a "yes" keeps the conversation or records the question for more information |
| LegacyService.TemplatesNotRemembered | llm_service.py:257-290 | template, calculator and invoice-data replies leave the last response alone |
| LegacyService.FeedbackFirst | llm_service.py:257-259 | feedback is recognised before anything else |
| LegacyService.ArithmeticBeforeKnowledge | llm_service.py:273-282 | arithmetic in the question is answered by the calculator before escalation, invoice data or the knowledge base; a failed calculation gives the `math_error` text |
| LegacyService.TurnAnswers | llm_service.py:252-319 | a question that is neither feedback nor "yes" is answered by the rules after it is recorded |
| LegacyService.MathAnswered | llm_service.py:273-282 | a question the calculator takes is answered by it, unless it is a "no" or a greeting |
| LegacyService.EscalationBeforeInvoiceData | llm_service.py:284-290 | a request to escalate wins over an invoice-data question |
| LegacyService.KnowledgeInAnyLanguage | llm_service.py:292-313 | a knowledge-base hit is answered and remembered in any language, while without a hit a language other than English or German raises `KeyError` |
| LegacyService.YesAfterFeedbackEscalates | llm_service.py:321-327 | with the corrected test, "yes" right after feedback escalates |
| LegacyService.YesAfterFeedbackAsWritten | llm_service.py:252-336 | as written, the feedback test reads the "yes" itself, so the service does not escalate and asks for more information instead |
| LegacyService.FeedbackThenYes | llm_service.py:252-336 | the conversation "that's wrong" then "yes" is one where the two differ |
| BackendService.Triggers | backend/llm_service.py:35-39 | the triggers exist exactly for English and German; another language raises `KeyError` |
| BackendService.IsEscalation | backend/llm_service.py:34-39 | a request escalates exactly when some trigger of its language occurs in the lower-cased query; an unknown language raises `KeyError` |
| BackendService.EscalationIgnoresCase | backend/llm_service.py:39 | the escalation test gives the same answer for a query and its lower-cased form |
| BackendService.EscalationText | backend/llm_service.py:41-46 | the escalation notice exists exactly for English and German |
| BackendService.ScanStops | backend/llm_service.py:50-54 | the scan returns the first matching entry's response, or raises `KeyError` at the first entry without the language's question, whichever comes first |
| BackendService.ScanMisses | backend/llm_service.py:51-55 | when every entry has the question and none occurs in the query, the lookup gives "" |
| BackendService.CheckKnowledgeFirstMatch | backend/llm_service.py:48-55 | the lookup answers with the first entry, category by category, whose question occurs in the query, ignoring case |
| BackendService.Instructions | backend/llm_service.py:13-16 | the answer instructions exist exactly for English and German |
| BackendService.ContextLines | backend/llm_service.py:60-62 | one `- key: value` line per context entry, in mapping order |
| BackendService.Assemble | backend/llm_service.py:64-70 | the prompt starts with the expert header and ends with the question and `Answer:` |
| BackendService.BuildPrompt | backend/llm_service.py:57-70 | the prompt fails exactly for a language without instructions, and otherwise opens with the header and ends with the question |
| BackendService.AssembleContains | backend/llm_service.py:64-70 | the prompt contains whatever its context block contains |
| BackendService.PromptListsContext | backend/llm_service.py:57-70 | every context entry appears in the prompt as its own `- key: value` line |
| BackendService.FalsyContextOmitted | backend/llm_service.py:58-65 | a missing context and an empty one give the same prompt, with no context block |
| BackendService.WordRun | backend/llm_service.py:73 | `\w+` takes the longest run of word characters |
| BackendService.ReferenceAt | backend/llm_service.py:73 | a reference found starts with `§`, is at least four characters long and lies within the text; none starts elsewhere |
| BackendService.ReferenceShape | backend/llm_service.py:73 | a reference found is `§`, digits, one space and a word that ends there |
| BackendService.EmphasizeWithoutReferences | backend/llm_service.py:73 | text without `§` is left as it is |
| BackendService.EmphasizeAfter | backend/llm_service.py:73 | text before the first `§` passes through unchanged |
| BackendService.EmphasizeReference | backend/llm_service.py:73 | a reference is wrapped in `**` as a whole and the scan continues after it |
| BackendService.EmphasisUndone | backend/llm_service.py:73-75 | removing every `**` undoes the emphasis |
| BackendService.EmphasisUndoneAt | backend/llm_service.py:73-75 | removing every `**` undoes the emphasis of a text that starts with a reference |
| BackendService.GermanFormat | backend/llm_service.py:72-76 | a German answer is the stripped answer without any `**`, including those the model wrote |
| BackendService.EnglishWithoutReferences | backend/llm_service.py:72-76 | an English answer without legal references is only stripped |
| BackendService.GetResponse | backend/llm_service.py:22-32 | a failure comes only from an unsupported language or a knowledge entry without the question |
| BackendService.EscalationFirst | backend/llm_service.py:23-24 | a request with a trigger gets the escalation notice, without the knowledge base or the model |
| BackendService.KnowledgeBeforeModel | backend/llm_service.py:26-28 | a knowledge-base answer is formatted and returned before the model is asked |
| BackendService.ModelLast | backend/llm_service.py:30-32 | otherwise the model answers the prompt with a 300-token budget, formatted |
| Api.Sanitize | backend/app.py:126 | every character outside `[a-zA-Z0-9_-]` becomes `_`, every other one is kept, and the length is unchanged |
| Api.SanitizeIdempotent | backend/app.py:126 | sanitising twice is sanitising once, and a number made of allowed characters is kept as it is |
| Api.LogPathConfined | backend/app.py:126-127 | whatever the customer number, the log location is one segment below the conversations, as long as the number, with no `/` and no `.` |
| Api.Get | backend/app.py:180-191 | `.get` fails exactly on a value that is not a dictionary |
| Api.GetSingle | backend/app.py:180-191 | the single entry of a one-entry dictionary is found |
| Api.FindInvoice | backend/app.py:160-175 | an invoice found was found by invoice number or by customer number |
| Api.InvoiceNumberFirst | backend/app.py:164-175 | an invoice found by its number settles the match: the customer lookup makes no difference and the match is never by customer |
| Api.NothingFound | backend/app.py:171-178 | with no invoice found either way, the greeting is empty |
| Api.PartnerOfProcessData | backend/app.py:180-191 | name and salutation are read from the process data under `Data.ProzessDaten.ProzessDatenElement` |
| Api.ProcessDataList | backend/app.py:184-187 | process data given as a list counts as its first element, and an empty list gives an empty name and salutation |
| Api.Salute | backend/app.py:196-205 | the greeting ends with a space, the name and `!` |
| Api.SalutationMapping | backend/app.py:196-205 | in German the stored salutation is kept; otherwise Frau and Herr, in any case, become Ms. and Mr. and any other salutation is kept |
| Api.CustomerName | backend/app.py:157-211 | the match type is "", "invoice" or "customer", and the greeting is empty exactly when the type is |
| Api.ErrorMessage | backend/app.py:99-103 | the invoice message exactly when the error text mentions invoice; the connection message exactly when it instead mentions network or connection; otherwise the general message |
| Api.LookupConcat | backend/app.py:63-93 | in a reply built from two parts, the first part's entry for a key wins |
| Api.CopiedAbsent | backend/app.py:76-87 | a name that no copied field gives is not in the copies |
| Api.CopiedIffTruthy | backend/app.py:76-87 | a structured field is copied exactly when its value is truthy, and then with that value under its reply name |
| Api.CopiedFromAppend | backend/app.py:76-87 | copying one more field appends its entry when its value is truthy and nothing otherwise |
| Api.CopyFields | backend/app.py:76-87 | the copies are the truthy structured fields, in source order |
| Api.ZeroConsumptionOmitted | backend/app.py:84-85 | a consumption of 0 is not copied to the reply |
| Api.SessionFields | backend/app.py:89-93 | the session entries are the customer number when given, then the request's invoice number or else a truthy structured one |
| Api.SessionInvoiceNumber | backend/app.py:92-93 | the request's invoice number wins for the session; otherwise the structured one when truthy; otherwise there is none |
| Api.ShapedReply | backend/app.py:62-95 | shaping fails exactly when the result has no text or its structured part is not a dictionary |
| Api.Shape | backend/app.py:62-95 | shaping builds the six base entries, the copies and the session entries, or raises |
| Api.ChatRoute | backend/app.py:49-110 | the reply is the shaped result, or the error reply for the message chosen from the exception's text |
| Api.MissingTextGeneral | backend/app.py:64-110 | a result without text is answered with the general error message |
| ChatGate.DecideCases | app.py:32-55 | an ID is registered exactly when none is known and one can be extracted; the request for an ID is made exactly when none is known, none can be extracted and the message is neither a yes or no nor a greeting; with an ID known the assistant answers |
| ChatGate.WordsTakenForIds | app.py:32-47 | a lone word of 4 to 20 ID characters, such as "nein" or "hello", is registered as an ID and never reaches the yes-or-no or greeting exemption |
| ChatGate.Confirmation | app.py:36-38 | the confirmation contains the registered ID |
| ChatGate.AskQuestion | app.py:28-59 | a registered ID is confirmed and a missing one requested without touching the conversation; otherwise the assistant's turn decides the reply and the new conversation, and an exception becomes a server error with its text |

## Left out

- Unicode beyond U+00FF: `lower()`, `strip()`, `split()` and the regex classes `\d`, `\w` and `\s` classify code points up to U+00FF as Python does (whitespace includes U+001C to U+001F, U+0085 and U+00A0; `\w` includes the ordinal indicators, the micro sign, the superscript digits and the vulgar fractions). Above U+00FF no character is whitespace, a word character or a capital, so for example U+2003 or Greek capitals are not handled as Python handles them.
- Json.AsReal: of the text forms `float()` accepts, only `[+-]digits[.digits]` after stripping is read. Exponents (`1e3`), `inf`, `nan` and underscores (`1_000`) read as 0 instead of their value.
- Calculator: arithmetic is exact over `real`. Float rounding and overflow are not modelled. For example, a 400-digit operand overflows to `inf` in the source, and `int(inf)` then raises `OverflowError`, so the source answers with the calculation error text where the model gives a number.
- LegacyService.UtilityBillAssistant.GetResponse: drives the corrected `HandleYes` of the "## Findings" row. After "that's wrong" the next "yes" escalates in the model. In the source (llm_service.py:250-253 and 321-336), the feedback test sees the "yes" itself and the turn asks for more information about the bill instead. `HandleYesAsWritten` models the source's behaviour.
- Float formatting: `:.2f`, `:.0f`, `:.4f` and `str(float)` are not rendered.
  - Amounts are `real`.
  - `LegacyService.Reply.Shown` and `Calculator` leave the digits of a fractional result unrendered.
  - The agentic prompt is a sequence of blocks carrying their values, not their wording.
- Floating-point rounding: `real` arithmetic is exact.
- The analyzer reads documents leniently: a missing or wrongly typed node reads as 0, "" or an empty list.
  - The places where the source itself raises `AttributeError` or `TypeError` on such a node are not distinguished there.
  - `float(x)` of text that is not a number reads as 0 instead of raising `ValueError`.
- Exception texts that depend on the Python version (the wording of a `TypeError` or `AttributeError`) are not distinguished. The model keeps only the exception kind.
- `get_invoice_data_response`, `prepare_invoice_context`, `flatten_invoice` and `retrieve_context` of the older service are parameters of `LegacyService.Environment`. Their bodies are I/O, formatting and vector search.
- The `lru_cache` on `check_knowledge`: memoisation does not change results.
- Vector search (FAISS, SentenceTransformer), the tokeniser (tiktoken) and the language model (`GPT4All.generate`) are uninterpreted function parameters.
- Knowledge-base and model file loading (`load_knowledge_base`, `load_knowledge`): the knowledge base is a parameter, as a map of categories to entries of string fields.
- The static regulation tables of `GermanEnergyRegulations`: constant data.
- Firebase and HTTP I/O are left out:
  - the store read of `fetch_invoice_data`, whose result is a parameter;
  - `requests.get` in the older service;
  - the `log_message` POST, its retry loop and its sleeps;
  - the `/health` probe.
- `_format_component_details` in backend/agentic_llm_service.py is never called, so it is not modelled.
- The `positive_feedback` template is not modelled: no rule of `get_response` ever selects it.
- Values that are not text inside an f-string are rendered by a `show` parameter.
- In backend/llm_service.py `build_prompt` takes its context as an ordered list of key/value pairs, the dictionary's iteration order.
- The `HTTPException(500)` of app.py becomes `ChatGate.Answer.ServerError` with the same detail text.
- The template replies of the older service and the notices of the agentic service are symbolic values. The text each stands for is given by `TemplateText` and `NoticeText`.
- datetime.strptime internals: dates are (year, month, day) triples. The `dd.mm.YYYY` form and the calendar check are modelled; locale and time parts are not.
- JavaScript front-ends, QR-code generators, model download, `.env` configuration and FastAPI/CORS/uvicorn setup are out of scope: they are UI, file and framework plumbing.
- LegacyService.MathGroup: states only that the captured arithmetic expression is non-empty and starts with a digit. How far `.*` extends is given by `LineEnd`.

## Findings

| source | as written | input that shows it | evidently intended | confidence | as-written member | corrected member |
|---|---|---|---|---|---|---|
| llm_service.py:321-336 | `handle_yes_response` tests `last_query` for feedback, but `get_response` has already set `last_query` to the "yes" being answered (llm_service.py:252-253) | "that's wrong", then "yes" | a "yes" right after feedback escalates to customer service | not executed | LegacyService.HandleYesAsWritten (lemmas LegacyService.YesAfterFeedbackAsWritten, LegacyService.FeedbackThenYes) | LegacyService.HandleYes (lemma LegacyService.YesAfterFeedbackEscalates) |

The conversation model uses the corrected `HandleYes`, which tests the query before the "yes".

## Where the code departs from its description

The model follows the code in each of these cases:
- The working price is one field divided by 100 (backend/agentic_llm_service.py:193-197). There are no multi-period working prices.
- Levy buckets add up each detail's `amount` (backend/agentic_llm_service.py:246). They do not compute price times consumption.
- The cost breakdown reads the `Kostenblock` entries only. There is no arithmetic fallback when they are missing (backend/agentic_llm_service.py:297-312).
- "Can you explain how my bill amount was calculated?" is classified as an explanation, not a calculation. The explanation patterns come first in the cascade (backend/agentic_llm_service.py:381-396). `QueryAnalyzer.ExplainBeforeCalculation` proves it.
- A bill with zero consumption does not by itself raise the `zero_usage_charges` anomaly. That anomaly depends on the USAGE_RATE items' amounts (backend/agentic_llm_service.py:261-284).
- `find_relevant_context` with a larger `max_items` does not always extend the result of a smaller one. The backfill pass over other categories runs only when the primary pass found fewer than `max_items` entries.
