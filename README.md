# Voice diary bot — a verified model of its deterministic core

The bot keeps a diary of memories about a daughter. A parent sends a Telegram voice
message. The bot transcribes it, has a language model rewrite it and stores one row per
memory in a Google spreadsheet. On request it writes monthly and yearly summaries of the
stored memories.

This project models the parts of that system that decide something. Every outside service is
replaced by an input that says what the service answered:

- the speech recognizer's outcome (`VoiceBot.Recognition`);
- the language model's answer, as `Option<string>`, where `None` means the call raised;
- what each authentication method meets (`SheetsStore.Attempt`);
- the records the spreadsheet hands back, where `None` means reading raised;
- the clock readings, as `VoiceBot.Stamp` values. The handler reads the clock once for its
  report; storing reads it once more for the row;
- the position of the Telegram call that raises, if any.

The model is split into six modules:

- `PyText` (py_text.dfy) holds the pieces of Python's `str` and `int` behaviour the bot relies on:
  - `strip()` and `strip(c)`;
  - `split(c)[0]` and `split(c)[1]`;
  - slicing, and the two-step truncation;
  - `str(int)`, `f"{n:02d}"` and `int(str)`;
  - string order and `sorted`.
- `Memories` (memories.dfy) holds a stored memory as a dictionary from column header to cell
  text, and the order-keeping filter of the store's queries.
- `SheetsStore` (sheets_store.dfy) is the memory store. It has:
  - a `SheetsManager` class whose `client`, `spreadsheet` and `worksheet` fields are set by the
    authentication chain and the worksheet setup;
  - a `Worksheet` class whose row list gets the header row inserted;
  - the month and year queries.
- `SummaryFormat` (summary_format.dfy) specifies the summaries. They are functions of the
  memories, the period and the model's answer. The module also holds the properties proved
  about these functions.
- `SummaryGenerator` (summary_generator.py's loops, in summary_generator.dfy) models the
  generators. They build prompt lists, fill group and count dictionaries and extend the
  summary text one `+=` at a time. Each is proved to produce exactly the `SummaryFormat`
  function.
- `VoiceBot` (voice_bot.dfy) models:
  - the transcript gate and the rewrite's fallback and quote stripping;
  - the stored row;
  - the `DiaryBot` class with its lazy initialisation latch;
  - the voice-message handler, as the list of steps it takes.

## Model

| member | source | states |
|---|---|---|
| `PyText.Strip` | telegram_bot.py:265 | `str.strip()` / `str.strip(c)`: the result is no longer than the input and neither starts nor ends with a stripped character |
| `PyText.StripIsSubstring` | telegram_bot.py:316 | what `strip` leaves is a contiguous piece of the original |
| `PyText.StripRuns` | telegram_bot.py:316 | `strip` removes a leading and a trailing run of stripped characters and nothing else: the result is `s[a..b]` with only stripped characters before `a` and from `b` on; with the contract of `Strip` these runs are the longest ones |
| `PyText.StripIdempotent` | telegram_bot.py:324 | stripping twice is stripping once |
| `PyText.StripUnchanged` | telegram_bot.py:265 | a string with nothing to strip at either end is returned as it is |
| `PyText.StripAll` | telegram_bot.py:324 | a string made only of stripped characters strips to the empty string |
| `PyText.Prefix` | summary_generator.py:87 | `s[:n]` has `min(n, len(s))` characters and is the start of `s` |
| `PyText.Truncate` | summary_generator.py:86-89 | the cut text is at most `keep + 3` long; it is unchanged when it has at most `keep` characters, and otherwise it is its first `keep` characters plus "..." |
| `PyText.BeforeFirst` | summary_generator.py:86 | `s.split(c)[0]` is a prefix of `s` without `c`, followed in `s` by `c` or by the end; it is all of `s` when `c` does not occur |
| `PyText.BeforeFirstOfJoin` | summary_generator.py:86 | splitting `a + c + b` at `c` gives back `a` when `a` has no `c` |
| `PyText.AfterFirst` | summary_generator.py:122 | `s` is its part before the first `c`, that `c`, and this rest |
| `PyText.SecondField` | summary_generator.py:122 | `s.split(c)[1]` is the start of the text after the first `c`, up to the next `c` or the end |
| `PyText.DigitChar` | google_sheets_manager.py:189 | the digit character for a value below 10 has that value |
| `PyText.NatToString` | google_sheets_manager.py:226 | `str(n)` is a non-empty run of digits, a single one exactly when `n < 10` |
| `PyText.IntToString` | google_sheets_manager.py:226 | `str(i)` ends in a digit and starts with `-` exactly when `i` is negative |
| `PyText.IntToStringChars` | summary_generator.py:85 | `str(i)` holds no character other than digits and `-`, so no `.` |
| `PyText.Pad2` | google_sheets_manager.py:189 | `f"{n:02d}"` has exactly two digits for 0 <= n < 100 |
| `PyText.FourDigits` | telegram_bot.py:341-343 | a year 1000..9999 prints as exactly four digits, as `%Y` does |
| `PyText.AllDigitsRun` | summary_generator.py:122 | a non-empty string of ASCII digits is a digit run `int()` accepts |
| `PyText.DigitsOfNat` | summary_generator.py:122 | `str(n)` is a digit run whose value is `n` |
| `PyText.ParseIntOfNatToString` | summary_generator.py:122 | `int(str(n)) == n` for `n >= 0` |
| `PyText.ParseIntStripped` | summary_generator.py:122 | `int()` of an already stripped `-digits` or `digits` string is that signed value |
| `PyText.ParseIntOfIntToString` | summary_generator.py:122 | `int(str(i)) == i` for every integer |
| `PyText.ParseIntOfNegative` | summary_generator.py:122 | `int("-" + str(n)) == -n` |
| `PyText.ParseIntOfNegativeDigits` | summary_generator.py:122 | `int("-" + d)` is minus the value of a digit run `d` |
| `PyText.ParseIntOfPad2` | summary_generator.py:122 | `int(f"{n:02d}") == n`, the leading zero included |
| `PyText.BelowIrreflexive` | summary_generator.py:120 | no string sorts before itself |
| `PyText.BelowTransitive` | summary_generator.py:120 | string order is transitive |
| `PyText.BelowTotal` | summary_generator.py:120 | of two different strings one sorts before the other |
| `PyText.BelowAsymmetric` | summary_generator.py:120 | no two strings sort before each other |
| `PyText.Insert` | summary_generator.py:120 | inserting into an ascending list gives an ascending permutation of the list plus the element |
| `PyText.Sort` | summary_generator.py:120 | `sorted(keys)` is an ascending permutation of `keys` |
| `PyText.AscendingUnique` | summary_generator.py:187 | two ascending arrangements of the same multiset are equal, so `Sort` is `sorted` whatever the algorithm |
| `PyText.DistinctCard` | summary_generator.py:116 | a list without repeats has as many distinct elements as entries |
| `PyText.ConcatAppend` | summary_generator.py:85-90 | appending lists of pieces appends their texts |
| `PyText.ConcatPrefixStep` | summary_generator.py:90 | one more `+=` of the next piece extends the joined text by that piece |
| `Memories.GetMatches` | google_sheets_manager.py:198 | for a non-empty value, `record.get(key, '') == value` and `record.get(key) == value` agree |
| `Memories.Filter` | google_sheets_manager.py:196-199 | the comprehension never returns more records than it is given |
| `Memories.FilterContents` | google_sheets_manager.py:196-199 | the filter holds exactly the matching records, each as often as in the input |
| `Memories.FilterAppend` | google_sheets_manager.py:224-227 | the filter keeps input order: it distributes over concatenation |
| `Memories.FilterAllMatching` | google_sheets_manager.py:196-199 | a list whose records all match is its own filter |
| `Memories.FilterIdempotent` | google_sheets_manager.py:224-227 | filtering twice is filtering once |
| `SheetsStore.Worksheet.constructor` | google_sheets_manager.py:137 | a worksheet added by the setup starts without rows |
| `SheetsStore.AuthChain` | google_sheets_manager.py:37-43 | the methods tried are a prefix of service account, OAuth, simple; the last one tried succeeds and every earlier one failed |
| `SheetsStore.WithHeader` | google_sheets_manager.py:154-159 | after the check, row 1 is the header row; a row is added exactly when the first row is missing, empty or does not start with "Datum", that row is the fixed header, and the old rows follow unchanged |
| `SheetsStore.WithHeaderIdempotent` | google_sheets_manager.py:154-159 | ensuring the header twice is ensuring it once |
| `SheetsStore.HeaderChecked` | google_sheets_manager.py:149-163 | after the header check the rows are unchanged when the service call raised, and otherwise start with the header row and end with the old rows |
| `SheetsStore.MonthKey` | google_sheets_manager.py:189 | the month filter key `f"{year}-{month:02d}"` reads back, through the summary generator's parsing, as that month, and its fallback label is the two-digit month |
| `SheetsStore.MockMonthRecord` | google_sheets_manager.py:203-212 | the stand-in record's `Monat` and `Jahr` match the requested month and year |
| `SheetsStore.MockYearRecord` | google_sheets_manager.py:232-240 | the stand-in record's `Jahr` matches the year and its `Monat` is June of that year |
| `SheetsStore.SheetsManager.constructor` | google_sheets_manager.py:18-21 | a new manager has no client, no spreadsheet and no worksheet |
| `SheetsStore.SheetsManager.TryCredentialAuth` | google_sheets_manager.py:57-111 | an attempt succeeds exactly when the spreadsheet opens; the client is set once authorizing works, the spreadsheet only once it is open |
| `SheetsStore.SheetsManager.TrySimpleAuth` | google_sheets_manager.py:113-122 | the simplified method drops the client and always reports success |
| `SheetsStore.SheetsManager.EnsureHeaders` | google_sheets_manager.py:149-163 | the worksheet's rows become `WithHeader` of its old rows; when reading row 1 or inserting the header raises, the error is only logged and the rows stay as they were (`HeaderChecked`) |
| `SheetsStore.SheetsManager.SetupWorksheet` | google_sheets_manager.py:129-147 | without both a client and a spreadsheet there is no worksheet; otherwise the first worksheet with its header checked, or, when that lookup raises, a freshly added worksheet with its header checked; when adding raises as well, the error is swallowed and the worksheet stays what it was |
| `SheetsStore.SheetsManager.Initialize` | google_sheets_manager.py:33-55 | always succeeds; tries exactly `AuthChain`; without a spreadsheet opened by a credential-based method there is no client and no worksheet; otherwise the worksheet is that spreadsheet's first sheet or a fresh one, each with its header checked, unless adding the fresh one raises, and a worksheet exists whenever `SetsUpWorksheet` holds |
| `SheetsStore.SheetsManager.MemoriesByMonth` | google_sheets_manager.py:186-216 | with a worksheet: exactly the fetched records whose `Monat` is `f"{year}-{month:02d}"`, each as often as fetched, or `[]` when reading raises; without one: the single stand-in record; every returned record is of that month |
| `SheetsStore.SheetsManager.MemoriesByYear` | google_sheets_manager.py:218-244 | the same for `Jahr == str(year)` |
| `SheetsStore.SheetsManager.IsConnected` | google_sheets_manager.py:246-248 | always true |
| `SheetsStore.SheetsManager.AppendRow` | telegram_bot.py:347-348 | the row goes below the last row unless the service call raises; without a worksheet the append is reported as done |
| `SheetsStore.QueriesKeepOrder` | google_sheets_manager.py:196-199 | both queries keep sheet order: the records of two stretches of the sheet come back in the order of the stretches |
| `SummaryFormat.MonthName` | summary_generator.py:40 | months 1..12 are named from the table; any other month number is printed with `str`, and that text reads back as the month |
| `SummaryFormat.IntToStringStart` | summary_generator.py:40 | `str(month)` starts with a digit or `-` |
| `SummaryFormat.NamesDistinct` | summary_generator.py:36-39 | no two months share a full name |
| `SummaryFormat.AbbreviationsDistinct` | summary_generator.py:190-193 | no two months share an abbreviation |
| `SummaryFormat.TablesCapitalized` | summary_generator.py:36-40 | every table entry starts with a capital letter |
| `SummaryFormat.MonthNameInjective` | summary_generator.py:36-40 | the month name (table entry for 1..12, `str(month)` otherwise) identifies the month: different months never print alike |
| `SummaryFormat.MonthNumberOfKey` | summary_generator.py:122 | a `Monat` key `f"{year}-{month:02d}"` as the store writes it parses back to its month |
| `SummaryFormat.MonthNumber` | summary_generator.py:122 | a key without `-` counts as month 1; only a key with `-` whose second field `int` rejects has no month number (the case that sends the yearly summary to the fallback) |
| `SummaryFormat.KeyLabel` | summary_generator.py:291 | a key without `-` is its own label; otherwise the label is shorter than the key and holds no `-` |
| `SummaryFormat.KeyLabelOfKey` | summary_generator.py:291 | a key as the store writes it is labelled with its two-digit month |
| `SummaryFormat.ListingLines` | summary_generator.py:85-90 | the listing has `min(10, len)` lines; line i shows memory i with number i + 1 |
| `SummaryFormat.ListingFirstTen` | summary_generator.py:85 | the listing depends only on the first ten memories |
| `SummaryFormat.ListingLineNumber` | summary_generator.py:90 | each listed line starts with its number, which reads back as that number |
| `SummaryFormat.ListingNumbers` | summary_generator.py:85-90 | at most ten lines, numbered 1, 2, ... in input order |
| `SummaryFormat.MoreLine` | summary_generator.py:92-93 | the trailer is present exactly when there are more than ten memories |
| `SummaryFormat.MoreLineCount` | summary_generator.py:267-268 | the trailer names the number of memories left out, `len - 10` |
| `SummaryFormat.MonthlyHead` | summary_generator.py:253-258 | the heading of a monthly summary (fallback and answered alike, they differ only in wording) opens with 📊 and contains the period and the number of memories |
| `SummaryFormat.MemoryTexts` | summary_generator.py:25-33 | at most one prompt line per memory, and none at all exactly when no memory has an enhanced text |
| `SummaryFormat.EmptyMonthly` | summary_generator.py:205-225 | the empty-month template, a function of year and month only, opens with 📅 and names the period (month name and year) |
| `SummaryFormat.EmptyYearly` | summary_generator.py:227-243 | the empty-year template, a function of the year only, opens with 📅 and names the year |
| `SummaryFormat.SimpleMonthly` | summary_generator.py:245-271 | the fallback monthly summary opens with 📊, never like the empty template, and contains the period, the number of memories, the listing of the first ten memories cut at 97 characters, and the trailer counting the rest |
| `SummaryFormat.MonthlyRequest` | summary_generator.py:25-33 | the model is asked exactly when some memory has an enhanced text |
| `SummaryFormat.MonthlyAnswered` | summary_generator.py:70-95 | the answered summary opens with 📊 and contains the period and the number of memories |
| `SummaryFormat.MonthlySummary` | summary_generator.py:18-101 | every monthly summary opens with 📅 or 📊 and names its period, whichever path produced it |
| `SummaryFormat.MonthlyEmptyExactly` | summary_generator.py:21-33 | the result is the empty-month template exactly when no memory has an enhanced text, an empty list included; only then does it open with 📅 |
| `SummaryFormat.MonthlyContainsAnswer` | summary_generator.py:70-90 | with an answer, the stripped answer and the listing of the first ten memories cut at 77 characters both appear in the summary |
| `SummaryFormat.AnsweredContains` | summary_generator.py:73-90 | the answered summary contains the stripped answer and the listing |
| `SummaryFormat.MonthKeys` | summary_generator.py:110-116 | the group keys are duplicate-free and are exactly the non-empty `Monat` values that occur |
| `SummaryFormat.GroupOfKey` | summary_generator.py:110-116 | a non-empty key has a non-empty group exactly when it occurs |
| `SummaryFormat.SortedKeyHasGroup` | summary_generator.py:120-124 | every key visited in sorted order is a group key with at least one memory, so `max` never sees an empty group |
| `SummaryFormat.SumOfCountsNoRecords` | summary_generator.py:276-280 | without memories every count is zero |
| `SummaryFormat.SumOfCountsSnoc` | summary_generator.py:276-280 | one more memory adds one to the count of its own month and nothing elsewhere |
| `SummaryFormat.CountsAddUp` | summary_generator.py:276-280 | counts over keys that list each month once add up to the number of memories with a month |
| `SummaryFormat.DistinctMultiplicity` | summary_generator.py:290 | a duplicate-free key list holds each key once |
| `SummaryFormat.MonthCountsAddUp` | summary_generator.py:276-293 | the per-month counts in sorted key order add up to the number of memories with a non-empty `Monat`; the active-month figure is the number of distinct non-empty `Monat` values |
| `SummaryFormat.LongestIndex` | summary_generator.py:125 | the highlight is a memory with the longest enhanced text, and no earlier memory is as long (the first on ties, as `max` picks) |
| `SummaryFormat.Highlights` | summary_generator.py:120-135 | one highlight per key, in the given key order: entry i is the month name of key i, a colon and that month's longest text cut at 147 characters |
| `SummaryFormat.StatsLines` | summary_generator.py:187-195 | one statistics line per key |
| `SummaryFormat.StatsLinesAt` | summary_generator.py:187-195 | line i of the statistics is the abbreviated month of key i and the size of its group, in the given key order |
| `SummaryFormat.SimpleStatsLines` | summary_generator.py:290-293 | one fallback statistics line per key, in the given key order: line i is the label of key i and the size of its group |
| `SummaryFormat.YearlyHead` | summary_generator.py:282-288 | the heading of a yearly summary (fallback and answered alike, they differ only in wording) opens with 📊 and contains the year, the number of memories and the number of active months |
| `SummaryFormat.SimpleYearly` | summary_generator.py:273-296 | the fallback yearly summary opens with 📊, names the year, and contains the fallback statistics lines of all months in sorted key order |
| `SummaryFormat.YearlyAnswered` | summary_generator.py:171-197 | the answered yearly summary opens with 📊 and contains the year, the number of memories, the stripped answer and the statistics lines of all months in sorted key order |
| `SummaryFormat.YearlyRequest` | summary_generator.py:139-148 | nothing is asked for an empty list; a yearly prompt carries the year, the number of memories, the number of active months and one highlight per active month |
| `SummaryFormat.YearlySummary` | summary_generator.py:103-203 | every yearly summary opens with 📅 or 📊 and names its year, whichever path produced it |
| `SummaryFormat.YearlyEmptyExactly` | summary_generator.py:106-107 | the result is the empty-year template exactly for an empty list; memories without any month still get statistics |
| `SummaryFormat.UnparsableKeyFallsBack` | summary_generator.py:122 | a `Monat` key whose month does not parse sends the yearly summary to the fallback, whatever the model would answer, and nothing is asked |
| `SummaryFormat.StoreKeysAreNumbered` | summary_generator.py:120-122 | for keys written as the store writes them, the model is asked exactly when there are memories |
| `SummaryGenerator.MemoryTextsStep` | summary_generator.py:26-30 | one more memory adds its prompt line exactly when it has an enhanced text |
| `SummaryGenerator.MonthKeysStep` | summary_generator.py:112-114 | one more memory adds its `Monat` as a key exactly when it is non-empty and new |
| `SummaryGenerator.GroupStep` | summary_generator.py:115-116 | one more memory extends its own month's group and no other |
| `SummaryGenerator.NewKeyGroup` | summary_generator.py:113-114 | a key not seen so far has no memories so far |
| `SummaryGenerator.SortedKeyIsKey` | summary_generator.py:120 | every sorted key is a key of the dictionary |
| `SummaryGenerator.HighlightsStep` | summary_generator.py:120-135 | one more key adds its highlight line |
| `SummaryGenerator.StatsStep` | summary_generator.py:187-195 | one more key adds its statistics line |
| `SummaryGenerator.SimpleStatsStep` | summary_generator.py:290-293 | one more key adds its fallback statistics line |
| `SummaryGenerator.OpenGroup` | summary_generator.py:113-114 | opening an empty group for a new key keeps the dictionary correct |
| `SummaryGenerator.AppendToGroup` | summary_generator.py:115-116 | appending a memory to its month's list keeps the dictionary correct |
| `SummaryGenerator.SkipUndated` | summary_generator.py:112-113 | a memory without a month changes no group |
| `SummaryGenerator.CountStep` | summary_generator.py:279-280 | `counts.get(key, 0) + 1` keeps the counts equal to the group sizes |
| `SummaryGenerator.CountSkip` | summary_generator.py:279 | a memory without a month changes no count |
| `SummaryGenerator.DictionarySize` | summary_generator.py:177-178 | a dictionary keyed by a duplicate-free list has that many entries, so `len(monthly_groups)` is the number of active months |
| `SummaryGenerator.AppendListing` | summary_generator.py:85-90 | the listing loop appends exactly the listing lines of the first ten memories |
| `SummaryGenerator.GroupByMonth` | summary_generator.py:110-116 | the dictionary's keys are the non-empty `Monat` values in order of first appearance, and each holds that month's memories in input order |
| `SummaryGenerator.CountByMonth` | summary_generator.py:276-280 | the counts dictionary has the same keys and each count is that month's group size |
| `SummaryGenerator.CollectHighlights` | summary_generator.py:120-135 | the loop completes exactly when every key's month number parses, and then yields the highlights in key order |
| `SummaryGenerator.MonthHighlight` | summary_generator.py:122-134 | one month's highlight line: its name and its longest text cut at 147 characters |
| `SummaryGenerator.AppendStats` | summary_generator.py:187-195 | the statistics loop appends exactly the statistics lines of the keys |
| `SummaryGenerator.AppendSimpleStats` | summary_generator.py:290-293 | the fallback statistics loop appends exactly the fallback lines of the keys |
| `SummaryGenerator.CreateSimpleMonthlySummary` | summary_generator.py:245-271 | computes exactly `SimpleMonthly` |
| `SummaryGenerator.MonthlyAssembled` | summary_generator.py:92-95 | the pieces appended after the listing (trailer only when more than ten, then closing) make up the rest of the summary |
| `SummaryGenerator.GenerateMonthlySummary` | summary_generator.py:18-101 | computes exactly `MonthlySummary` and asks the model exactly `MonthlyRequest` |
| `SummaryGenerator.CollectMemoryTexts` | summary_generator.py:25-30 | computes exactly the prompt lines `MemoryTexts` |
| `SummaryGenerator.AssembleMonthlySummary` | summary_generator.py:70-95 | computes exactly `MonthlyAnswered` |
| `SummaryGenerator.CreateSimpleYearlySummary` | summary_generator.py:273-296 | computes exactly `SimpleYearly` |
| `SummaryGenerator.GenerateYearlySummary` | summary_generator.py:103-203 | computes exactly `YearlySummary` and asks the model exactly `YearlyRequest` |
| `SummaryGenerator.AssembleYearlySummary` | summary_generator.py:171-197 | computes exactly `YearlyAnswered` |
| `VoiceBot.Transcript` | telegram_bot.py:264-283 | a transcript exists exactly when speech was recognized and its stripped text has at least three characters, and it is that stripped text; no match, cancellation, other reasons and errors give none |
| `VoiceBot.TranscriptIsClean` | telegram_bot.py:265-270 | a transcript is a piece of the recognized text, at least three characters long, with no surrounding whitespace |
| `VoiceBot.Enhance` | telegram_bot.py:316-331 | an error, or a stripped answer shorter than ten characters, gives back the original text |
| `VoiceBot.EnhanceAccepted` | telegram_bot.py:316-327 | an accepted answer is a contiguous piece of the model's answer and neither starts nor ends with `'` |
| `VoiceBot.EnhanceOfQuotesOnly` | telegram_bot.py:319-324 | the length check comes before the quote stripping: ten or more `"` are accepted and leave an empty text |
| `VoiceBot.DayStringShape` | telegram_bot.py:341 | the `%Y-%m-%d` part has ten characters and no space |
| `VoiceBot.MemoryRow` | telegram_bot.py:339-345 | the row is date, original, enhanced, month, year from one timestamp; the month column is the 7-character and the year column the 4-character prefix of the 19-character date; the month is the store's key for that month |
| `VoiceBot.DatePrefixes` | telegram_bot.py:341-343 | `%Y-%m` and `%Y` are prefixes of `%Y-%m-%d %H:%M:%S` of the same reading |
| `VoiceBot.RowRecord` | google_sheets_manager.py:158 | the record read back for a stored row has each header mapped to its cell |
| `VoiceBot.SavedMemoryIsFound` | telegram_bot.py:339-345 | a stored memory is found again by the month and year queries for its timestamp, its `Monat` parses back to its month, and the summaries list it under its day |
| `VoiceBot.ReportHead` | telegram_bot.py:184-199 | the report opens with ✅ on success and ⚠ otherwise |
| `VoiceBot.ReportText` | telegram_bot.py:183-211 | the report opens with ✅ exactly when storing succeeded and with ⚠ exactly when it did not |
| `VoiceBot.ReportShowsBothTexts` | telegram_bot.py:183-211 | either report shows both the transcript and the enhanced text |
| `VoiceBot.Plan` | telegram_bot.py:130-211 | without faults the handler opens with the "processing" reply and stores exactly when the message is at most 300 seconds long and has a transcript |
| `VoiceBot.Run` | telegram_bot.py:213-223 | a run is never longer than its plan, and it departs from the plan only when a Telegram call in the plan raises |
| `VoiceBot.RunFollowsPlan` | telegram_bot.py:213-223 | every step taken is the planned step at its position, except that the last may be the generic error message |
| `VoiceBot.PlanSteps` | telegram_bot.py:130-211 | the handler's steps without faults: a too-long message gets only the rejection; otherwise the download and recognition, then the "not understood" message or the rewrite, the store and the report |
| `VoiceBot.ReachesStoreInPlan` | telegram_bot.py:141-181 | the handler gets to the store exactly when the message is short enough, has a transcript, and no Telegram call before the store raises |
| `VoiceBot.StoreStepIffReached` | telegram_bot.py:141-181 | storing happens exactly when the handler gets that far |
| `VoiceBot.PlanIgnoresSaveUntilReport` | telegram_bot.py:180-183 | what storing returns affects only the final report |
| `VoiceBot.LongMessageRejected` | telegram_bot.py:141-143 | a message over 300 seconds gets only the rejection: no download, recognition, rewrite or store, whichever call raises |
| `VoiceBot.NoTranscriptStops` | telegram_bot.py:159-167 | without a transcript neither the rewrite nor the store runs, and the last step is the "not understood" message |
| `VoiceBot.ReportFollowsSave` | telegram_bot.py:170-211 | without a fault the handler rewrites, stores, and ends with the report of what storing returned |
| `VoiceBot.FaultGivesGenericReply` | telegram_bot.py:213-223 | when a Telegram call raises, what ran before it stays, no report is shown, and the generic error message follows unless sending it raises too |
| `VoiceBot.DiaryBot.constructor` | telegram_bot.py:47-48 | a new bot is not initialized and has a fresh, unconnected manager |
| `VoiceBot.SetUpRows` | google_sheets_manager.py:129-163 | the rows the worksheet setup leaves: the first sheet's rows or, for an added sheet, none, then the header check; a raising check leaves them as they were, and an added sheet whose check works holds just the header row |
| `VoiceBot.DiaryBot.InitializeSheets` | telegram_bot.py:59-66 | the manager's `initialize` runs only while the bot is not initialized, at most once over the bot's life, and the latch stays set; a second call changes nothing; the first leaves a worksheet exactly when `SetsUpWorksheet` holds, and that worksheet is the spreadsheet's first sheet (or a freshly added one) holding `SetUpRows`: its earlier rows (none for an added sheet) after the header check |
| `VoiceBot.DiaryBot.SaveToSheets` | telegram_bot.py:333-363 | with the append the manager should offer: initializes the store, and succeeds unless the append raises; then the memory's row is the worksheet's new last row. On an already initialized store nothing else changed; on the first store the worksheet is the first sheet (or a freshly added one) and holds `SetUpRows` of its earlier rows followed by the memory's row when storing succeeded |
| `VoiceBot.DiaryBot.SaveToSheetsAsWritten` | telegram_bot.py:333-363 | as written, storing never succeeds (see Findings) |
| `VoiceBot.DiaryBot.HandleVoiceMessage` | telegram_bot.py:130-223 | the steps taken are the plan cut at the first raising Telegram call plus the error handler; storing happens exactly when the handler gets that far, and its result is what the report shows; a successful store leaves the row of the transcript and its rewrite as the worksheet's last row (on an existing worksheet: its only new row; on the first store: after the header-checked rows `SetUpRows` of the first sheet or of a freshly added one); a handler that stops before the store changes neither the manager nor any worksheet. It stores through the corrected `SaveToSheets` of the Findings row; with `SaveToSheetsAsWritten` every run that reaches the store shows the ⚠ report, `Report(false, …)`, as `VoiceBot.ReportFollowsSave` with `saved` false states |
| `VoiceBot.StepsBeforeStore` | telegram_bot.py:132-178 | the steps before the store: the handler stops exactly when it does not get to the store, and otherwise has the transcript and its rewrite |
| `VoiceBot.StepsAfterStore` | telegram_bot.py:181-211 | the steps from the store on, after a fault-free run up to the store, are the rest of the plan for the save result, cut at a raising Telegram call |
| `VoiceBot.TakeIn` | telegram_bot.py:134-157 | the reply, the length check, the download and the recognition, stopping at a raising call or a too-long message |
| `VoiceBot.Perform` | telegram_bot.py:213-223 | one step: a raising Telegram call ends the run with the error handler, any other step is taken |

## Left out

- The speech recognizer, the OGG to WAV conversion and its temporary files: only the outcome of recognition is modelled.
- The language model calls and the prompt wording: the answer is an input, `None` when the call raises.
- The Telegram transport: outgoing messages and status edits are steps in a list.
- Markdown parse mode and logging are not modelled.
- Credential loading and file-path probing: what they end in is an input.
- google_sheets_manager.py does not compile as written (lines 165-166): `save_memory` puts its docstring on the `def` line and then opens an indented `try` without a colon. Python rejects the whole module, so the import at telegram_bot.py:21 fails and the bot never starts. The model reads the file with `save_memory` removed.
- The `/start` and `/help` commands, the text-message reply, and the `/monats_zusammenfassung` and `/jahres_zusammenfassung` commands that call the summary generator are not modelled. They are Telegram transport around the modelled generators and store queries.
- main.py, start_bot.py and deploy.py are not part of this model.
- The clock and the Europe/Berlin time zone are not modelled; readings are inputs, restricted to four-digit years.
- `VoiceBot.Stamp` readings outside 1000..9999 are not modelled. `%Y` pads such years, while `str(year)` does not.
- `PyText.ParseInt`: `int()` also accepts non-ASCII decimal digits; the model accepts only ASCII digits.
- `SheetsStore.Worksheet.constructor`: a worksheet added by the setup is modelled as empty. The real one is a 1000 × 10 grid of blank cells.
- `SheetsStore.SheetsManager.Initialize`: `initialize` returns False only from its `except` path or when every method fails. Neither can happen, because the simplified method always reports success and the worksheet setup swallows its own errors. The model's `initialize` therefore always returns true. The setup's failures are modelled: `addFails` and `headerFails` on `SheetsStore.Spreadsheet`.
- `SheetsStore.SheetsManager.MemoriesByYear` models every cell as text. The library's `get_all_records` turns numeric-looking cells into numbers, so a real sheet hands back the `Jahr` cell "2024" as the integer 2024, and `record.get('Jahr') == str(year)` then never matches. The model does not capture this library conversion. The month key "2024-06" is not numeric and is unaffected.
- `VoiceBot.SavedMemoryIsFound` holds for the text-cell model above. It does not hold for the year query on a real sheet, because of that number conversion.
- `VoiceBot.Enhance` removes every leading and trailing `"` and then every leading and trailing `'`. It does so after the length check, so the result can be empty (`VoiceBot.EnhanceOfQuotesOnly`).
- `VoiceBot.StepsBeforeStore`, `VoiceBot.StepsAfterStore`, `VoiceBot.TakeIn` and `VoiceBot.Perform` split `handle_voice_message` into parts, and the `Assemble*`, `Collect*` and `MonthHighlight` methods split the generators. These are decompositions of one source function each, not separate source functions.

## Findings

| source | as written | input that shows it | evidently intended | confidence | as-written member | corrected member |
|---|---|---|---|---|---|---|
| telegram_bot.py:347-348 | `_save_to_sheets` calls `append_row` on the sheets manager. google_sheets_manager.py defines no such method, so the call raises AttributeError, and the `except` at telegram_bot.py:361-363 returns False. `is_connected` is always true, so once the module loads this happens every time (as written, google_sheets_manager.py does not compile; see "## Left out"). | any voice message with a transcript, on any store | append the memory's row to the worksheet and report success, simulating it without a worksheet | high; not executed | `VoiceBot.DiaryBot.SaveToSheetsAsWritten` | `VoiceBot.DiaryBot.SaveToSheets`, used by `VoiceBot.DiaryBot.HandleVoiceMessage` |
