# JD extraction core, in Dafny

This project models the core of a job-description (JD) extraction backend.
The backend reads job descriptions from a spreadsheet column. Each one is
sent to three AI providers in turn until one answers with JSON that parses.
Regular-expression fallbacks fill in critical fields the AI left empty. The
bill rate text is split into a minimum and a maximum. Progress is tracked
per request. The model covers these parts:

- `BillRateParser` (`bill_rate_parser.dfy`): `BillRateParser.parse`, which
  turns a bill-rate string into `{min_bill_rate, max_bill_rate}` by trying
  the range pattern first and the single-number pattern second.
- `FallbackBillRate`, `FallbackFields` and `FallbackEnhance`
  (`fallback_bill_rate.dfy`, `fallback_fields.dfy`, `fallback_enhance.dfy`):
  - the five `FallbackExtractor.extract_*` functions, each a first-match
    cascade of regular expressions, encoded position by position;
  - the imperative `enhance_extraction` loop that fills missing fields.
- `ResponseParser` (`response_parser.dfy`): removing code fences, cutting
  out the JSON object, and building a `JDExtractionResult` from the decoded
  object. `json.loads` and pydantic's error text are parameters.
- `Orchestrator` (`orchestrator.dfy`): the provider fallback chain of
  `AIOrchestrator.extract_jd` and its audit log. The log is a sequence
  field of an `AuditRepository` object. Each provider's answer is an
  abstract outcome.
- `Tracker` (`tracker.dfy`): the `ProgressState` and `ProgressTracker`
  classes. Their fields are updated in place.
- `Extractor` (`extractor.dfy`): the row loop of
  `JDExtractor.extract_from_excel_background`. It uses the orchestrator as
  an oracle, and writes the tracker and the results cache.
- Shared modules:
  - `Text` (`text.dfy`): the string and regular-expression vocabulary
    (`str.strip`, `re.search`, `re.sub`, `re.split`, greedy runs, numerals);
  - `Json` (`json.dfy`): decoded JSON values and Python truthiness;
  - `JdResult` (`jd_result.dfy`): the records;
  - `Errors` (`errors.dfy`): the exceptions;
  - `Wrappers` (`wrappers.dfy`): `Option` and `Result`.

Each regular expression is modelled by a function `PAt(s, i)`. It says
whether the pattern matches at position `i` of `s`, and what its groups
capture there, with Python's greedy backtracking semantics written out.
`re.search` is `Text.FirstMatch`: the leftmost position where the pattern
matches. A list of patterns tried in order is `Text.Cascade`. Numbers kept
in bill rates are decimal text (`Text.IsNumeral`), not floats.

## Model

| member | source | states |
|---|---|---|
| BillRateParser.Parse | backend/app/services/billing/bill_rate_parser.py:28-101 | parse never fails; a minimum only comes with a maximum; both bounds are numerals `\d+(?:\.\d+)?`; `None` or all-whitespace input gives both `None` |
| BillRateParser.ParseCleaned | backend/app/services/billing/bill_rate_parser.py:56-97 | the cases after `strip()`, in their order; the same bound facts hold; empty stripped text gives both `None` |
| BillRateParser.ParseRange | backend/app/services/billing/bill_rate_parser.py:60-74 | when the stripped text has a range match, the result is the leftmost match's first number as minimum and its second number as maximum, in that order |
| BillRateParser.ParseCleanedRange | backend/app/services/billing/bill_rate_parser.py:60-74 | the same, on text already stripped |
| BillRateParser.RangeAtSound | backend/app/services/billing/bill_rate_parser.py:60-64 | each match the range matcher reports is a match of the range pattern: no digit skipped before the first number, only whitespace before the dash, and two maximal numerals |
| BillRateParser.RangeAt | backend/app/services/billing/bill_rate_parser.py:60-64 | a reported match lies at or after its start, the two numbers start with digits and a dash lies between them |
| BillRateParser.RangeAfterMin | backend/app/services/billing/bill_rate_parser.py:61 | the rest of a match starts at the first number's end and has a dash before a digit |
| BillRateParser.RangeAtComplete | backend/app/services/billing/bill_rate_parser.py:60-64 | every match of the range pattern at a position is the one the matcher reports there |
| BillRateParser.MinPartAt | backend/app/services/billing/bill_rate_parser.py:61 | the first number of a match is where the matcher finds it |
| BillRateParser.MaxPartAt | backend/app/services/billing/bill_rate_parser.py:61 | the dash and the second number of a match are where the matcher finds them |
| BillRateParser.RangeAfterMinIs | backend/app/services/billing/bill_rate_parser.py:61 | the rest of the pattern reports the match once each greedy step lands where the match says |
| BillRateParser.DollarSpaceEndShape | backend/app/services/billing/bill_rate_parser.py:61 | what `\$?\s*` skips is at most a dollar sign, then whitespace |
| BillRateParser.DollarSpaceEndAt | backend/app/services/billing/bill_rate_parser.py:61 | where such text is followed by a digit, `\$?\s*` ends exactly there |
| BillRateParser.SpaceDollarEndShape | backend/app/services/billing/bill_rate_parser.py:61 | what `\s*\$?\s*` skips after the dash is whitespace with at most one dollar sign |
| BillRateParser.SpaceDollarEndAt | backend/app/services/billing/bill_rate_parser.py:61 | where such text is followed by a digit, `\s*\$?\s*` ends exactly there |
| BillRateParser.LeftmostRangeExists | backend/app/services/billing/bill_rate_parser.py:60-64 | a text where the range pattern matches has a leftmost match |
| BillRateParser.FirstRangeIs | backend/app/services/billing/bill_rate_parser.py:60-64 | `re.search` with the range pattern finds the leftmost match |
| BillRateParser.NoMatchNoRangeAt | backend/app/services/billing/bill_rate_parser.py:60-64 | where the range pattern does not match, the matcher reports nothing |
| BillRateParser.NoRangeAtNoMatch | backend/app/services/billing/bill_rate_parser.py:60-64 | where the matcher reports nothing, the range pattern does not match |
| BillRateParser.RangeAfterMinSound | backend/app/services/billing/bill_rate_parser.py:61 | the part of a range match after the first number is whitespace, a dash, no digit or dash, then a maximal numeral |
| BillRateParser.SingleAt | backend/app/services/billing/bill_rate_parser.py:78-82 | the single-number pattern's number lies after its start, and it matches wherever a digit stands |
| BillRateParser.SingleAtSound | backend/app/services/billing/bill_rate_parser.py:78-82 | the single-number pattern skips no digit before its number |
| BillRateParser.ParseSingle | backend/app/services/billing/bill_rate_parser.py:78-93 | without a range match, the first digit of the stripped text starts the reported maximum, and there is no minimum |
| BillRateParser.ParseCleanedSingle | backend/app/services/billing/bill_rate_parser.py:78-93 | the same, on text already stripped |
| BillRateParser.FirstDigitExists | backend/app/services/billing/bill_rate_parser.py:78-93 | a text with a digit has a first digit after stripping, so the single case covers every digit-bearing text without a range |
| BillRateParser.FirstDigit | backend/app/services/billing/bill_rate_parser.py:78-82 | the first digit is at or before any known digit |
| BillRateParser.ParseNoDigit | backend/app/services/billing/bill_rate_parser.py:95-97 | a text without digits is unparsable: both bounds `None` |
| BillRateParser.DigitsSurviveStrip | backend/app/services/billing/bill_rate_parser.py:56 | `strip()` neither adds nor removes digits |
| BillRateParser.RangeHasDigit | backend/app/services/billing/bill_rate_parser.py:60-66 | a range match implies a digit in the text |
| BillRateParser.SingleHasDigit | backend/app/services/billing/bill_rate_parser.py:78-84 | a single-number match implies a digit in the text |
| BillRateParser.NoDashNoRange | backend/app/services/billing/bill_rate_parser.py:60-64 | the range pattern needs a dash |
| BillRateParser.ParseNoDash | backend/app/services/billing/bill_rate_parser.py:60-93 | without a dash no minimum is ever reported |
| BillRateParser.ParseDollarRange | backend/app/services/billing/bill_rate_parser.py:39 | `$x-$y` followed by text that does not continue `y` gives minimum `x` and maximum `y` |
| BillRateParser.CleanedDollarRange | backend/app/services/billing/bill_rate_parser.py:39 | the same, on text already stripped |
| BillRateParser.DollarRangeAt | backend/app/services/billing/bill_rate_parser.py:60-74 | `$`, a numeral, `-$`, a numeral that cannot be extended: the range pattern matches at the start with those two numerals |
| BillRateParser.DollarNumeralAt | backend/app/services/billing/bill_rate_parser.py:61 | `\$?\s*` after a dollar sign stops at the numeral, and the numeral is matched to its end |
| BillRateParser.DashDollarNumeralAt | backend/app/services/billing/bill_rate_parser.py:61 | `-$` and a numeral after the first number complete the range pattern |
| BillRateParser.ParseDollarSingle | backend/app/services/billing/bill_rate_parser.py:40-41 | `$x` followed by text without a dash gives maximum `x` and no minimum |
| BillRateParser.CleanedDollarSingle | backend/app/services/billing/bill_rate_parser.py:40-41 | the same, on text already stripped |
| BillRateParser.ExampleRange | backend/app/services/billing/bill_rate_parser.py:39 | `"$70-$85"` gives min 70, max 85 |
| BillRateParser.ExampleSingle | backend/app/services/billing/bill_rate_parser.py:40 | `"$70"` gives max 70 only |
| BillRateParser.ExampleMax | backend/app/services/billing/bill_rate_parser.py:41 | `"$80 MAX"` gives max 80 only |
| BillRateParser.PaddedRangeAt | backend/app/services/billing/bill_rate_parser.py:60-64 | the range pattern matches all of `"70 - $ 85"` from its start, with the numbers at 0..2 and 7..9 |
| BillRateParser.DecimalRangeAt | backend/app/services/billing/bill_rate_parser.py:60-64 | the range pattern matches all of `"1.5-2.5"` from its start, with the numbers at 0..3 and 4..7 |
| BillRateParser.ExamplePaddedRange | backend/app/services/billing/bill_rate_parser.py:58-74 | `"70 - $ 85"`, with whitespace around the dash and after the dollar sign, gives min 70 and max 85 |
| BillRateParser.ExampleDecimalRange | backend/app/services/billing/bill_rate_parser.py:58-74 | `"1.5-2.5"` gives min 1.5 and max 2.5 |
| BillRateParser.ParseBatch | backend/app/services/billing/bill_rate_parser.py:104-114 | one result per input, in order, each the parse of its input |
| BillRateParser.ParseBillRate | backend/app/services/billing/bill_rate_parser.py:118-119 | the module-level function agrees with `parse` |
| FallbackBillRate.ExtractBillRate | backend/app/services/ai/fallback_extractor.py:21-69 | `None` exactly when none of the six patterns matches anywhere in the lower-cased text; otherwise the formatted rate through the rewrite as written |
| FallbackBillRate.ExtractBillRateFormats | backend/app/services/ai/fallback_extractor.py:30-64 | the first pattern that matches anywhere decides; patterns 1, 2 and 4 give `$n MAX`, pattern 3 a range, pattern 5 a single rate; pattern 6 never decides; each amount loses a `.00` that follows its whole digits, whatever follows the `.00` |
| FallbackBillRate.ExtractBillRateIntended | backend/app/services/ai/fallback_extractor.py:21-69 | the same cascade with the corrected rewrite; `None` exactly when no pattern matches |
| FallbackBillRate.ExtractBillRateIntendedFormats | backend/app/services/ai/fallback_extractor.py:30-64 | with the corrected rewrite, exactly the zero cents are removed from the amounts the first matching pattern formats |
| FallbackBillRate.BillP1At | backend/app/services/ai/fallback_extractor.py:32-33 | pattern 1 matches only at `bill` and captures one numeral, formatted as `$n MAX` |
| FallbackBillRate.BillP2At | backend/app/services/ai/fallback_extractor.py:36-37 | pattern 2 matches only at `max` and captures one numeral, formatted as `$n MAX` |
| FallbackBillRate.BillP3At | backend/app/services/ai/fallback_extractor.py:40-41 | pattern 3 matches only at `bill` and captures two numerals, formatted as a range |
| FallbackBillRate.BillP4At | backend/app/services/ai/fallback_extractor.py:44-45 | pattern 4 matches only at `bill` and captures one numeral, formatted as `$n MAX` |
| FallbackBillRate.BillP5At | backend/app/services/ai/fallback_extractor.py:48-49 | pattern 5 matches only at `bill` and captures one numeral, formatted as a single rate |
| FallbackBillRate.BillP6At | backend/app/services/ai/fallback_extractor.py:52-53 | pattern 6 matches only at `bill` and captures two digit runs, formatted as a range without `/hr` |
| FallbackBillRate.Format | backend/app/services/ai/fallback_extractor.py:33-53 | every formatted rate starts with `$`; with numeral amounts it ends in `X` exactly for `$n MAX`, and otherwise in `r` exactly when `/hr` was seen |
| FallbackBillRate.PatternShapes | backend/app/services/ai/fallback_extractor.py:30-54 | the formatter each pattern uses, and every captured amount is a numeral |
| FallbackBillRate.P6ImpliesP5 | backend/app/services/ai/fallback_extractor.py:49-53 | wherever pattern 6 matches, pattern 5 matches at the same place |
| FallbackBillRate.Pattern6NeverDecides | backend/app/services/ai/fallback_extractor.py:49-57 | the cascade never stops at pattern 6 |
| FallbackBillRate.AmountAt | backend/app/services/ai/fallback_extractor.py:32 | `\$?\s*(\d+(?:\.\d+)?)` captures a numeral inside the text |
| FallbackBillRate.BillRateLead | backend/app/services/ai/fallback_extractor.py:32 | `bill\s*rate` spans at least eight characters inside the text |
| FallbackBillRate.HrEnd | backend/app/services/ai/fallback_extractor.py:43 | the optional `\s*(?:/hr)?` suffix stays inside the text |
| FallbackBillRate.FormatNormalized | backend/app/services/ai/fallback_extractor.py:60-62 | the corrected rewrite of a formatted rate only removes zero cents from its amounts |
| FallbackBillRate.FormatNormalizedAsWritten | backend/app/services/ai/fallback_extractor.py:60-62 | the rewrite as written cuts `.00` out of each amount right after its whole digits |
| FallbackBillRate.NoDollarFixed | backend/app/services/ai/fallback_extractor.py:62 | both the written and the corrected rewrite leave text without a dollar sign unchanged |
| FallbackBillRate.AsWrittenCutAt | backend/app/services/ai/fallback_extractor.py:62 | the written rewrite removes the `.00` that directly follows an amount's digits, even when more digits follow it |
| FallbackBillRate.AsWrittenKeepAt | backend/app/services/ai/fallback_extractor.py:62 | the written rewrite copies an amount whose digits are not followed by `.00` |
| FallbackBillRate.ZeroCentsAsWrittenHit | backend/app/services/ai/fallback_extractor.py:62 | as written, every `$<digits>.00` becomes `$<digits>`, whatever follows it |
| FallbackBillRate.ZeroCentsAmountAsWritten | backend/app/services/ai/fallback_extractor.py:62 | as written, a dollar amount followed by text that does not continue it loses the `.00` after its whole digits |
| FallbackBillRate.DropZeroCentsAsWritten | backend/app/services/ai/fallback_extractor.py:62 | the written rewrite of one amount keeps its length or removes exactly three characters |
| FallbackBillRate.DropsDiffer | backend/app/services/ai/fallback_extractor.py:62 | the two rewrites of an amount differ exactly when `.00` follows its whole digits and more digits follow the `.00` |
| FallbackBillRate.HasZeroCentsAt | backend/app/services/ai/fallback_extractor.py:62 | an amount has zero cents exactly when `.00` ends it right after its whole digits |
| FallbackBillRate.AsWrittenMiss | backend/app/services/ai/fallback_extractor.py:62 | when `.00` does not follow an amount's whole digits, the rewrite finds no `.00` there in `$n...` either |
| FallbackBillRate.IntPartEnd | backend/app/services/ai/fallback_extractor.py:62 | the `\d+` of the rewrite stops at the dot of the amount, or at its end |
| FallbackBillRate.ZeroCentsAmount | backend/app/services/ai/fallback_extractor.py:62 | a dollar amount followed by text that does not continue it loses exactly its zero cents |
| FallbackBillRate.ZeroCentsAtHit | backend/app/services/ai/fallback_extractor.py:62 | an amount with zero cents is rewritten to its whole part |
| FallbackBillRate.ZeroCentsAtShape | backend/app/services/ai/fallback_extractor.py:62 | the corrected rewrite matches an amount only when the amount has zero cents |
| FallbackBillRate.IntPartRun | backend/app/services/ai/fallback_extractor.py:62 | the `\d+` of the rewrite covers the integer part of the amount |
| FallbackBillRate.NumeralIntPart | backend/app/services/ai/fallback_extractor.py:62 | a numeral splits into digits, then an optional dot and more digits, and has no dollar sign |
| FallbackBillRate.NoDollarKeeps | backend/app/services/ai/fallback_extractor.py:62 | text without a dollar sign passes the rewrite unchanged |
| FallbackBillRate.DropZeroCents | backend/app/services/ai/fallback_extractor.py:61-62 | dropping zero cents keeps a prefix of the amount |
| FallbackBillRate.ZeroCentsAsWrittenMergesDigits | backend/app/services/ai/fallback_extractor.py:62 | as written, `.00` followed by more digits loses the dot and the zeros |
| FallbackBillRate.ZeroCentsKeepsNonZeroCents | backend/app/services/ai/fallback_extractor.py:61-62 | the corrected rewrite keeps such an amount whole |
| FallbackBillRate.ZeroCentsFindingExample | backend/app/services/ai/fallback_extractor.py:62 | `"$70.001"` becomes `"$701"` as written and stays `"$70.001"` when corrected |
| FallbackBillRate.ZeroCentsAgree | backend/app/services/ai/fallback_extractor.py:62 | when no `.00` is followed by a digit, the written and the corrected rewrite agree |
| FallbackFields.ExtractDuration | backend/app/services/ai/fallback_extractor.py:72-89 | `None` exactly when none of the three duration patterns matches |
| FallbackFields.DurationFromFirstPattern | backend/app/services/ai/fallback_extractor.py:80-87 | the result is the normalised group of the first pattern that matches |
| FallbackFields.DurationGroupShape | backend/app/services/ai/fallback_extractor.py:74-78 | every duration pattern captures text that starts with a digit |
| FallbackFields.NormalizeKeepsLeadingDigit | backend/app/services/ai/fallback_extractor.py:85-87 | the unit normalisation and `strip()` keep the leading digit |
| FallbackFields.NormalizeDuration | backend/app/services/ai/fallback_extractor.py:85-87 | the normalised duration is stripped at both ends, and text without `mo` or `yr` only loses its surrounding whitespace |
| FallbackFields.DurationStartsWithDigit | backend/app/services/ai/fallback_extractor.py:72-89 | a duration found is non-empty and starts with a digit |
| FallbackFields.DigitsEnd | backend/app/services/ai/fallback_extractor.py:94-103 | `\d+` covers a non-empty run of digits |
| FallbackFields.UnitEnd | backend/app/services/ai/fallback_extractor.py:75-77 | a unit word, when found, is not empty |
| FallbackFields.AmountEnd | backend/app/services/ai/fallback_extractor.py:75-77 | the duration group starts with a digit |
| FallbackFields.ExtractGbamsId | backend/app/services/ai/fallback_extractor.py:92-106 | `None` exactly when no GBAMS pattern matches; otherwise a non-empty string of digits |
| FallbackFields.GbamsGroupDigits | backend/app/services/ai/fallback_extractor.py:94-99 | every GBAMS pattern captures a non-empty run of digits |
| FallbackFields.GbamsIdFromFirstPattern | backend/app/services/ai/fallback_extractor.py:101-104 | the result is the digits of the first pattern that matches |
| FallbackFields.ExtractLocation | backend/app/services/ai/fallback_extractor.py:109-127 | `None` exactly when none of the three location patterns matches |
| FallbackFields.LocationFromFirstPattern | backend/app/services/ai/fallback_extractor.py:117-125 | the result is the cleaned group of the first pattern that matches |
| FallbackFields.CleanLocation | backend/app/services/ai/fallback_extractor.py:120-125 | a cleaned location is at most 100 characters and does not start with whitespace |
| FallbackFields.RemoveTicks | backend/app/services/ai/fallback_extractor.py:122 | no `~` or backtick is left, and the text is not longer |
| FallbackFields.CleanLocationTickFree | backend/app/services/ai/fallback_extractor.py:120-125 | a cleaned location is at most 100 characters and has no `~` or backtick |
| FallbackFields.CleanLocationStopFree | backend/app/services/ai/fallback_extractor.py:124-125 | a cleaned location holds none of `duration`, `experience`, `skills`, `msp`, in any case |
| FallbackFields.ExtractMspOwner | backend/app/services/ai/fallback_extractor.py:130-146 | `None` exactly when none of the three MSP patterns matches |
| FallbackFields.MspOwnerFromFirstPattern | backend/app/services/ai/fallback_extractor.py:138-144 | the result is the cleaned group of the first pattern that matches |
| FallbackFields.CleanMspOwner | backend/app/services/ai/fallback_extractor.py:141-144 | a cleaned owner is at most 100 characters and does not start with whitespace |
| FallbackFields.CleanMspOwnerProperties | backend/app/services/ai/fallback_extractor.py:141-144 | a cleaned owner is at most 100 characters and holds none of `location`, `duration`, `gbams`, in any case |
| FallbackFields.StopFreeSlice | backend/app/services/ai/fallback_extractor.py:124 | a slice of text with no keyword before its end has no keyword |
| FallbackFields.CutIsStopFree | backend/app/services/ai/fallback_extractor.py:124-125 | the text before the first keyword, stripped and truncated, holds no keyword |
| FallbackFields.SliceOfTickFree | backend/app/services/ai/fallback_extractor.py:122-125 | a slice of tick-free text is tick-free |
| FallbackEnhance.EnhanceExtraction | backend/app/services/ai/fallback_extractor.py:149-182 | the loop over the five critical fields computes the enhanced dictionary |
| FallbackEnhance.Fallbacks | backend/app/services/ai/fallback_extractor.py:163-169 | the five fallback values, one per critical field, in order |
| FallbackEnhance.Enhanced | backend/app/services/ai/fallback_extractor.py:149-182 | the enhanced dictionary keeps every key of the input and adds at most the five critical fields |
| FallbackEnhance.EnhancedUpTo | backend/app/services/ai/fallback_extractor.py:159-177 | after `n` steps the dictionary keeps every key and has gained at most `n` |
| FallbackEnhance.EnhancedField | backend/app/services/ai/fallback_extractor.py:172-177 | a critical field keeps a truthy value, else takes a non-empty fallback, else stays as it was; it is present exactly when it was present or was filled |
| FallbackEnhance.EnhancedKeepsOtherKeys | backend/app/services/ai/fallback_extractor.py:159 | keys other than the five critical fields are unchanged |
| FallbackEnhance.EnhancedNeverOverwritesTruthy | backend/app/services/ai/fallback_extractor.py:173 | a truthy value is never overwritten |
| FallbackEnhance.EnhancedWritesOnlyTruthyFallback | backend/app/services/ai/fallback_extractor.py:173-177 | any key that changed had a falsy value and now holds a non-empty string |
| FallbackEnhance.EnhancedIdempotent | backend/app/services/ai/fallback_extractor.py:149-182 | enhancing twice gives the same as enhancing once |
| FallbackEnhance.FilledIdempotent | backend/app/services/ai/fallback_extractor.py:173-177 | filling one field twice gives the same as filling it once |
| FallbackEnhance.FieldNamesDistinct | backend/app/services/ai/fallback_extractor.py:163-169 | the five critical field names are distinct |
| FallbackEnhance.UpToField | backend/app/services/ai/fallback_extractor.py:172-177 | after the loop has passed a field, the field holds its filled value |
| FallbackEnhance.UpToKeeps | backend/app/services/ai/fallback_extractor.py:159 | the loop leaves keys it has not reached as they were |
| ResponseParser.ParseExtractionResponse | backend/app/services/ai/response_parser.py:22-62 | every failure is an `AIExtractionError` |
| ResponseParser.ParseJsonFailure | backend/app/services/ai/response_parser.py:57-59 | undecodable text gives `Failed to parse JSON: ` and the decoder's message |
| ResponseParser.ParseNotAnObject | backend/app/services/ai/response_parser.py:38-39 | a decoded value that is not an object is rejected with its message |
| ResponseParser.ParseSucceedsIff | backend/app/services/ai/response_parser.py:35-53 | parsing succeeds exactly when the cleaned text decodes to an object whose eight fields are valid |
| ResponseParser.ParsedFieldsCopied | backend/app/services/ai/response_parser.py:42-53 | on success each field is the object's value, absent or null keys give `None`, `skills` is kept only as a list, and the model name and `SUCCESS` are recorded |
| ResponseParser.InvalidFields | backend/app/services/ai/response_parser.py:42-53 | no invalid field is reported exactly when every field is valid, and every field reported is invalid |
| ResponseParser.CreateFallbackResult | backend/app/services/ai/response_parser.py:84-88 | status `FAILED`, the message in `role_description`, every other field `None` |
| ResponseParser.CleanResponseSpan | backend/app/services/ai/response_parser.py:77-81 | the cleaned text is the stripped span from the first `{` to the last `}` |
| ResponseParser.CleanResponseNoSpan | backend/app/services/ai/response_parser.py:77-81 | without such a span, the cleaned text is the stripped fence-free text |
| ResponseParser.CleanResponse | backend/app/services/ai/response_parser.py:65-81 | the cleaned text holds no code fence marker |
| ResponseParser.Unfenced | backend/app/services/ai/response_parser.py:73-74 | the two fence substitutions leave no three backticks in a row |
| ResponseParser.BraceSpan | backend/app/services/ai/response_parser.py:77-79 | the span is the whole text, or starts with `{` and ends with `}`; fence-free text gives a fence-free span |
| ResponseParser.BuildResult | backend/app/services/ai/response_parser.py:42-53 | each of the eight fields is copied from the object, `skills` only as a list of strings, with the model name and `SUCCESS` recorded |
| ResponseParser.UnfencedWithoutBackticks | backend/app/services/ai/response_parser.py:73-74 | text without backticks passes the fence substitutions unchanged |
| ResponseParser.FenceFree | backend/app/services/ai/response_parser.py:74 | removing every fence marker leaves none behind |
| ResponseParser.FenceFactsReplace | backend/app/services/ai/response_parser.py:74 | a marker removed at the front keeps the output fence-free |
| ResponseParser.FenceFactsCopy | backend/app/services/ai/response_parser.py:74 | a character copied at the front keeps the output fence-free |
| ResponseParser.NoFenceSlice | backend/app/services/ai/response_parser.py:77-79 | a slice of fence-free text is fence-free |
| ResponseParser.NoFenceStrip | backend/app/services/ai/response_parser.py:81 | stripping fence-free text keeps it fence-free |
| ResponseParser.BraceAt | backend/app/services/ai/response_parser.py:77 | the brace match ends inside the text |
| ResponseParser.BraceSpanIs | backend/app/services/ai/response_parser.py:77-79 | the span is the text from the first `{` to the last `}` |
| ResponseParser.BraceSpanNone | backend/app/services/ai/response_parser.py:77-79 | without a `}` after a `{`, the text is kept whole |
| Orchestrator.AIOrchestrator.ExtractJd | backend/app/services/ai/orchestrator.py:36-89 | the result, the providers called and the entries appended to the audit log are those of the fallback chain |
| Orchestrator.AIOrchestrator.ExtractWithService | backend/app/services/ai/orchestrator.py:91-121 | the result is the provider's error or the parser's verdict; a success entry is logged only after a successful parse, and nothing is logged on failure |
| Orchestrator.AIOrchestrator.LogSuccess | backend/app/services/ai/orchestrator.py:123-143 | exactly one success entry is appended |
| Orchestrator.AIOrchestrator.LogFailure | backend/app/services/ai/orchestrator.py:145-162 | exactly one failure entry with response time 0 and the message is appended |
| Orchestrator.AIOrchestrator.constructor | backend/app/services/ai/orchestrator.py:29-34 | the orchestrator keeps its repository and parser |
| Orchestrator.AuditRepository.SaveAuditLog | backend/app/repositories/jd_repository.py:92-99 | the entry is appended to the log, and the call always returns |
| Orchestrator.AuditRepository.constructor | backend/app/repositories/jd_repository.py:92-99 | the log starts empty |
| Orchestrator.ChainFirstSuccess | backend/app/services/ai/orchestrator.py:53-82 | when providers before `k` fail and `k` succeeds, the result is `k`'s, only providers up to `k` are called, and the log holds `k` failure entries then one success entry |
| Orchestrator.ChainAllFail | backend/app/services/ai/orchestrator.py:53-89 | when all fail, all three are called, three failure entries are logged, and `AIServiceUnavailableError` carries the last error's message |
| Orchestrator.ChainSucceedsIff | backend/app/services/ai/orchestrator.py:53-89 | the chain succeeds exactly when some provider's attempt does |
| Orchestrator.ChainFromFirstSuccess | backend/app/services/ai/orchestrator.py:53-82 | the same as the first-success property, from any provider on |
| Orchestrator.ChainShape | backend/app/services/ai/orchestrator.py:45-89 | providers are called in list order, one entry per call naming its provider, only openai reporting token usage, every entry but the last a failure |
| Orchestrator.ChainFrom | backend/app/services/ai/orchestrator.py:53-89 | a run from provider `i` logs one entry per provider called, calls provider `i` first and at most the rest, and fails only with `AIServiceUnavailableError` after calling every remaining provider |
| Orchestrator.Chain | backend/app/services/ai/orchestrator.py:45-89 | the chain calls ollama first, logs one entry per call, and fails only with `AIServiceUnavailableError` after calling ollama, gemini and openai in that order |
| Orchestrator.ChainFromCalls | backend/app/services/ai/orchestrator.py:53-82 | a run from provider `i` calls providers from `i` on in order and logs one entry per call |
| Orchestrator.ChainFromEntries | backend/app/services/ai/orchestrator.py:53-82 | each entry names its provider and the request |
| Orchestrator.ChainFromStatuses | backend/app/services/ai/orchestrator.py:53-82 | every entry but the last is a failure with response time 0; the last is a success exactly when the run succeeds |
| Orchestrator.ChainFromStep | backend/app/services/ai/orchestrator.py:53-82 | one step of the loop: a success stops the chain, a failure logs and continues |
| Orchestrator.ContinuesStep | backend/app/services/ai/orchestrator.py:53-82 | the loop invariant of `extract_jd` is kept by a failed step |
| Orchestrator.ContinuesDone | backend/app/services/ai/orchestrator.py:53-67 | the loop invariant of `extract_jd` at a success gives the chain's log and calls |
| Orchestrator.Attempt | backend/app/services/ai/orchestrator.py:101-109 | a provider error becomes an `AIExtractionError` with its message; an answer is parsed with the provider's name |
| Orchestrator.UsageFor | backend/app/services/ai/orchestrator.py:102-106 | only openai reports token usage; the others log `{}` |
| Orchestrator.ServiceTypes | backend/app/services/ai/orchestrator.py:45-49 | the provider types, in the order they are tried |
| Orchestrator.HealthCheck | backend/app/services/ai/orchestrator.py:164-169 | exactly the keys `ollama`, `gemini`, `openai`, each with its provider's flag |
| Tracker.ProgressState.constructor | backend/app/services/progress/tracker.py:23-27 | a new state records its id, total and creation time, at zero processed |
| Tracker.ProgressState.Increment | backend/app/services/progress/tracker.py:30-33 | the processed count grows by one |
| Tracker.ProgressState.GetProgress | backend/app/services/progress/tracker.py:36-42 | the snapshot holds the total and the processed count |
| Tracker.ProgressState.IsComplete | backend/app/services/progress/tracker.py:44-47 | complete exactly when the processed count reaches the total |
| Tracker.ProgressTracker.constructor | backend/app/services/progress/tracker.py:67-70 | the tracker starts empty |
| Tracker.ProgressTracker.StartTracking | backend/app/services/progress/tracker.py:72-82 | the request gets a fresh state at zero processed, replacing any old one; nothing else changes |
| Tracker.ProgressTracker.IncrementProgress | backend/app/services/progress/tracker.py:84-96 | a tracked request counts one more record; an unknown id changes nothing |
| Tracker.ProgressTracker.GetProgress | backend/app/services/progress/tracker.py:98-111 | the snapshot of the request, or `None` when it is not tracked |
| Tracker.ProgressTracker.StopTracking | backend/app/services/progress/tracker.py:113-123 | the request is forgotten; an unknown id changes nothing |
| Tracker.ProgressTracker.CleanupOldStates | backend/app/services/progress/tracker.py:125-146 | exactly the states created before the cutoff are removed |
| Tracker.ProgressOf | backend/app/services/progress/tracker.py:98-111 | `None` exactly for untracked ids; otherwise the entry's counters |
| Tracker.Started | backend/app/services/progress/tracker.py:72-82 | after a start the request is tracked at zero of its total, and every other entry is kept |
| Tracker.Incremented | backend/app/services/progress/tracker.py:84-96 | an increment tracks the same requests and keeps every other entry |
| Tracker.Stopped | backend/app/services/progress/tracker.py:113-123 | after a stop exactly the other requests are tracked |
| Tracker.Swept | backend/app/services/progress/tracker.py:133-143 | the sweep keeps only entries created at or after the cutoff, unchanged |
| Tracker.StartedProgress | backend/app/services/progress/tracker.py:72-82 | after a start the request shows zero of its total; other requests are unaffected |
| Tracker.IncrementedProgress | backend/app/services/progress/tracker.py:84-96 | an increment adds exactly one and keeps total and creation time; others are untouched; an unknown id is a no-op |
| Tracker.IncrementedTimesStep | backend/app/services/progress/tracker.py:84-96 | `k + 1` increments are one increment after `k` |
| Tracker.StoppedProgress | backend/app/services/progress/tracker.py:113-123 | after a stop the request is gone; others are unaffected |
| Tracker.SweptExactly | backend/app/services/progress/tracker.py:133-143 | the sweep keeps exactly the entries created at or after the cutoff, unchanged, and sweeping twice changes nothing more |
| Tracker.StartThenIncrements | backend/app/services/progress/tracker.py:72-96 | `k` increments after a start show `k` processed with the total and creation time kept |
| Tracker.StartThenIncrementsComplete | backend/app/services/progress/tracker.py:44-47 | a request started with `n` records is complete exactly after `n` or more increments |
| Extractor.TallyStep | backend/app/services/jd/extractor.py:106-125 | one more row: a blank row changes nothing, a success appends its result and counts one success, a failure counts one failure |
| Extractor.JDExtractor.ProcessRows | backend/app/services/jd/extractor.py:102-130 | the loop's results and counters are its tally, and the request's progress grows by one per non-blank row |
| Extractor.JDExtractor.ExtractFromExcelBackground | backend/app/services/jd/extractor.py:98-174 | when the column cannot be read the request is stopped; a run that completes caches its summary after tracking every non-blank row; when saving fails the request is stopped and nothing is cached |
| Extractor.JDExtractor.constructor | backend/app/services/jd/extractor.py:30 | the results cache starts empty |
| Extractor.TallyCounts | backend/app/services/jd/extractor.py:102-126 | every non-blank row is counted once as a success or a failure, with one result per success |
| Extractor.TallyResultsInOrder | backend/app/services/jd/extractor.py:106-122 | each result carries its row's index and text and the extracted record, in increasing row order |
| Extractor.TallyResultsComplete | backend/app/services/jd/extractor.py:106-122 | every non-blank row that was extracted appears among the results |
| Extractor.NonEmptyCount | backend/app/services/jd/extractor.py:98 | the non-blank count is at most the number of rows |
| Extractor.BlankIsEmptyStrip | backend/app/services/jd/extractor.py:107-108 | a row is skipped exactly when `strip()` empties it |
| Extractor.Summary | backend/app/services/jd/extractor.py:156-162 | the cached dictionary holds the request id, the results, their number and both counters |
| Extractor.SummaryCounts | backend/app/services/jd/extractor.py:156-162 | the cached counters add up to the non-blank rows, and the number processed is the number of successes |
| Extractor.BackgroundRunCompletes | backend/app/services/jd/extractor.py:98-130 | after a run that raised nothing, the request shows every non-blank row processed and is complete |
| Json.Get | backend/app/services/ai/response_parser.py:43-50 | `d.get(key)` is the stored value, or `None` when the key is absent |
| Text.Strip | backend/app/services/billing/bill_rate_parser.py:56 | `str.strip()` removes exactly the leading and trailing whitespace, and is empty exactly for all-whitespace text |
| Text.LowerStr | backend/app/services/ai/fallback_extractor.py:27 | lower-casing maps each character, keeping the length |
| Text.FirstMatch | backend/app/services/ai/fallback_extractor.py:57 | `re.search` finds the leftmost position where the pattern matches, and `None` exactly when it matches nowhere |
| Text.Cascade | backend/app/services/ai/fallback_extractor.py:56-64 | the first pattern in the list that matches anywhere decides, and `None` exactly when none matches |
| Text.CascadeFirst | backend/app/services/ai/fallback_extractor.py:56-64 | the cascade's result is fixed by the first pattern that matches |
| Text.SplitHead | backend/app/services/ai/fallback_extractor.py:124 | `re.split(...)[0]` is the prefix before the leftmost match, or the whole text |
| Text.SubAllNoMatch | backend/app/services/ai/fallback_extractor.py:62 | `re.sub` leaves text without a match unchanged |
| Text.SubAllCopyFront | backend/app/services/ai/fallback_extractor.py:62 | where no match starts, `re.sub` copies that character and carries on after it |
| Text.SubAllKeeps | backend/app/services/ai/fallback_extractor.py:62 | `re.sub` copies unchanged a prefix at none of whose positions a match starts |
| Text.Take | backend/app/services/ai/fallback_extractor.py:125 | `s[:n]` is a prefix of at most `n` characters, the whole text when it is short |
| Text.NumeralEnd | backend/app/services/billing/bill_rate_parser.py:61 | `\d+(?:\.\d+)?` matches exactly where a digit stands |
| Text.NumeralEndSound | backend/app/services/billing/bill_rate_parser.py:61 | its match is a numeral that cannot be extended |
| Text.NumeralEndIs | backend/app/services/billing/bill_rate_parser.py:61 | a numeral that cannot be extended is exactly its match |

## Left out

- Numbers are kept as their decimal text. The `float()` conversion in `BillRateParser.parse` is not modelled, so the bounds are numerals rather than floats.
- `BillRateParser.parse` never raises in the model. The `try`/`except` returning the default result cannot be reached, so it is not modelled.
- Logging is not modelled anywhere.
- Case folding is ASCII only. `str.lower()` and `re.IGNORECASE` on non-ASCII letters are not modelled.
- `\d` is the ASCII digits only. Python's `\d` also matches other Unicode decimal digits, which are not modelled. `\s` and `str.strip()` use Python's full whitespace set.
- `FallbackBillRate.ExtractBillRate`: the formatters cannot raise, so the `except` in the pattern loop is not modelled.
- `FallbackEnhance.EnhanceExtraction`: the extractors cannot raise, so the `except` in the loop is not modelled.
- `json.loads` is a parameter of the parser, as a function from text to a decoded value or an error message. JSON decoding, including `NaN` and `Infinity`, is not modelled.
- Pydantic's validation of `JDExtractionResult` is modelled as a type check of the eight fields. The text of its error is a parameter, `report`. It sees only the names of the rejected fields, so a message that quotes the rejected values is not modelled.
- The AI providers (`OllamaService`, `GeminiService`, `OpenAIService`) are not modelled. Each call is an outcome given as a parameter: an error message, or the raw text, response time and token usage.
- `Extractor.JDExtractor.ProcessRows`: the orchestrator is an oracle from row text to outcome, so two rows with the same text get the same outcome. Answers that vary from call to call are not modelled.
- `Orchestrator.AIOrchestrator.ExtractJd`: the `if result:` test is always true for a parsed record, so it is not modelled as a branch.
- The `ai_extraction_timestamp`, `datetime.utcnow()` and the uuid request ids are not modelled. Times in the tracker are integer microseconds given as parameters.
- `Tracker.ProgressTracker.CleanupOldStates`: `max_age_minutes` has no default of 60, because Dafny has no default arguments.
- The tracker's locks, the singleton `__new__`, `asyncio` and concurrency are not modelled. The tracker is one object, used sequentially.
- The audit repository's storage is not modelled. `save_audit_log` appends to a sequence and swallows storage errors, so it always returns.
- `Extractor.JDExtractor.ExtractFromExcelBackground`: the Excel reading, `save_request`, `save_results`, the workbook export and `_excel_cache` are not modelled. Their failures are two parameters: `columnData` is `None` when reading the column or saving the request raised, and `persisted` is false when saving the results or building the workbook raised.
- The rest of the backend (the API routes, the Excel reader and exporter, the prompt templates, the database layer and configuration) is not part of this model.

## Findings

| source | as written | input that shows it | evidently intended | confidence | as-written member | corrected member |
|---|---|---|---|---|---|---|
| backend/app/services/ai/fallback_extractor.py:62 | `re.sub(r'\$(\d+)\.00', r'$\1', result)` has no boundary after `.00`, so an amount whose cents start with `00` loses the dot and the two zeros | `"bill rate: $70.001"`: pattern 5 formats `"$70.001"`, which the rewrite turns into `"$701"` | remove only cents that are exactly `.00`, at the end of the amount, so `"$70.00"` becomes `"$70"` and `"$70.001"` is kept | not executed | FallbackBillRate.ZeroCentsAsWrittenMergesDigits | FallbackBillRate.ZeroCentsKeepsNonZeroCents |

`FallbackBillRate.ExtractBillRate` keeps the rewrite as written, because it
models what `extract_bill_rate` does. `FallbackEnhance` calls it, so the
enhanced dictionary can hold `"$701"` for `"bill rate: $70.001"`.
`FallbackBillRate.ExtractBillRateIntended` is the corrected extractor.
`FallbackBillRate.ZeroCentsAgree` shows that the two agree unless some
`.00` is followed by a digit.
