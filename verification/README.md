# journal_hours: a Dafny model of the work-journal hours counter

`journal_hours.py` reads a plain-text work journal and reports the time
worked. Each line of the journal is stripped of surrounding whitespace and then
read as one of three kinds:

- a date header `YYYY-MM-DD`, which opens a new day section;
- a time marker `start HH:MM` or `end HH:MM`, which opens or closes an interval
  on the current date;
- anything else, which is ignored.

`process` pairs starts with ends into `(start, end)` intervals grouped by date.
An end earlier than its start is moved to the next day. An interval still open
at the end of the journal is closed at "now", but only when the journal's last
date is today. `main` then keeps only the non-empty sections inside an optional
date range. It adds up the durations with `interval_sum`, prints them with
`format_timedelta`, and deducts a retainer from the amount due, never going
below zero.

The project is split into these modules:

- `Wrappers` (wrappers.dfy): `Option` and `Result`.
- `Calendar` (calendar.dfy) represents dates and timestamps.
  - A date is its proleptic ordinal, the number `date.toordinal()` gives it.
  - A naive datetime is a number of microseconds, the resolution of
    `timedelta`, so `end - start` is an exact subtraction.
  - `AssembleDateTime` is `assemble_datetime`.
- `Text` (text.dfy) holds the character-level helpers.
  - `str.strip()`, with the full whitespace set of `str.isspace()`.
  - Decimal digit strings and their values.
  - The `'{}'` and `'{:02d}'` renderings of integers.
- `Classifier` (classifier.dfy) holds `parse_date` and `parse_time`, each with
  the canonical text it reads back exactly (a round trip in both directions).
- `Assembler` (assembler.dfy) models `process` in two layers.
  - A pure specification: `Step` reads one line, `Run` folds `Step` over a
    prefix of the journal, `Finish` handles the end of input, and
    `ProcessSpec` combines them.
  - Imperative methods: `Process` is the source's loop over the lines,
    `ProcessLine` is its body, `PairMarker` is the marker half of that
    body and `CloseRunning` closes a running interval at the end. Each is
    proved to compute the specification.
  - An invariant `Valid` is proved to hold after every line.
- `Aggregator` (aggregator.dfy) holds `interval_sum` (a loop proved against
  `Sum`), the date-range filter of `main` and its default start date, the
  grand total, the retainer floor and `format_timedelta`.

"Today" and "now", which the source reads from the clock, are parameters of
`ProcessSpec` and `Process`.

The model follows the code in these points, where a reader of the journal or
of the report might expect otherwise:

- Error messages cite the 0-based index of the line (`enumerate(lines)`), not a
  1-based line number.
- The "marker before any date" error carries no line number. The same message
  is raised for an `end` marker as for a `start` marker.
- An end equal to its start gives a zero-length interval. The end is moved to
  the next day only when it is strictly earlier than the start.
- There is no strict mode that rejects backward intervals. An earlier end is
  always moved to the next day.
- A start that is still pending when a new date header arrives is carried
  into the new section. The end is then taken on the new date, so such an
  interval can last more than a day. The "less than one day" bound therefore
  holds only when both markers sit under the same header (`CloseSameDay`
  versus `CloseLaterDay`).
- An interval left open on a date other than today is dropped silently.
- Moving an end on 9999-12-31 to the next day raises Python's `OverflowError`, not an `IntervalError`. The model reports it as the error `Overflow`, which cites no line.

## Model

| member | source | states |
|---|---|---|
| Calendar.DaysInMonth | journal_hours.py:227-231 | a month has 28 to 31 days, and 29 exactly in February of a leap year, as `datetime` checks a parsed date; each month's length is the step between consecutive entries of the cumulative month table (for December, up to the year's length) |
| Calendar.DayNumber | journal_hours.py:227-235 | the ordinal of a valid date lies within its year: after every day of the earlier years and at most the year's length beyond them |
| Calendar.LastDate | journal_hours.py:177 | no valid date has an ordinal above that of 9999-12-31, the last day a `datetime` can hold, and only that date reaches it |
| Calendar.DayNumberOrder | journal_hours.py:157 | comparing the ordinals of two valid dates is chronological comparison, in both directions, and equal ordinals mean the same date |
| Calendar.AssembleDateTime | journal_hours.py:243-245 | the timestamp falls on the given date, and its offset into that day is the given time of day (seconds are zero) |
| Text.TrimStart | journal_hours.py:151 | the result is a suffix of the input, every dropped character is whitespace, and the result does not start with whitespace |
| Text.TrimEnd | journal_hours.py:151 | the result is a prefix of the input, every dropped character is whitespace, and the result does not end with whitespace |
| Text.Strip | journal_hours.py:151 | a stripped line neither starts nor ends with whitespace |
| Text.StripIdempotent | journal_hours.py:51 | stripping twice (once in `main`, once in `process`) is stripping once |
| Text.StripUnchanged | journal_hours.py:151 | a line with no whitespace at either end is left as it is |
| Text.Padded | journal_hours.py:224 | the `{:02d}`-style rendering has exactly the requested width, only digits, and reads back as the number |
| Text.IntToDecimal | journal_hours.py:224 | the `{}` rendering of an integer is its digits, preceded by `-` exactly when it is negative, with no leading zero (only 0 itself starts with `0`), and reads back as the number |
| Text.FirstIndex | journal_hours.py:195-198 | the position of the first space, or -1 exactly when there is none, which is where `split(' ', 1)` cuts |
| Classifier.ParseDate | journal_hours.py:227-231 | a date accepted by the model is no later than 9999-12-31; it also contains no space, which holds for the model's recogniser only, since `strptime` takes a space-padded day (see Left out) |
| Classifier.ParseDateText | journal_hours.py:227-231 | the `%Y-%m-%d` text of every valid date (years 1 to 9999) parses back to that date |
| Classifier.ParseDateSome | journal_hours.py:227-231 | every line accepted as a date is the `%Y-%m-%d` text of a valid date |
| Classifier.ParseClock | journal_hours.py:203 | a time accepted by the model is five characters with `:` in the middle and no space (`ParseClockSome` says exactly which texts) |
| Classifier.ParseClockText | journal_hours.py:203-205 | the `%H:%M` text of every time of day parses back to that time |
| Classifier.ParseClockSome | journal_hours.py:203-205 | every string accepted as a time is the `%H:%M` text of that time |
| Classifier.ParseMarker | journal_hours.py:195-205 | a line with no space is never a marker |
| Classifier.ParseMarkerText | journal_hours.py:194-211 | `start HH:MM` and `end HH:MM` read back as their action and time |
| Classifier.ParseMarkerSome | journal_hours.py:195-205 | a line read as a marker is exactly `start` or `end`, one space and a `%H:%M` time, so an unknown action or a malformed time is not a marker |
| Classifier.DateIsNotMarker | journal_hours.py:154-164 | a date header never reads as a marker as well |
| Classifier.ParseTime | journal_hours.py:194-211 | it fails exactly on a marker seen before any date, and the error is "before any date markers"; it returns nothing exactly for a non-marker; otherwise it returns the marker's action and time on the current date |
| Classifier.Classify | journal_hours.py:154-164 | a line is a date header exactly when `parse_date` accepts it, and a marker exactly when the marker shape is found |
| Assembler.Close | journal_hours.py:174-178 | the interval keeps the start, and its end is the end time or that time one day later |
| Assembler.CloseOverflow | journal_hours.py:176-177 | for an end on a date, moving it to the next day overflows exactly when it is earlier than the start and falls on 9999-12-31; an end that is not moved, or moved without overflow, stays on a date |
| Assembler.AppendToLast | journal_hours.py:178 | the interval is appended to the last section's list, and every other section and the last section's date stay as they were |
| Assembler.Process | journal_hours.py:145-191 | the loop returns what `ProcessSpec` specifies, including the first error and the overflow of an end moved past 9999-12-31 |
| Assembler.ProcessLine | journal_hours.py:150-181 | one iteration of the loop does what `Step` specifies for the line |
| Assembler.PairMarker | journal_hours.py:162-181 | the pairing of markers does what `MarkerStep` specifies: the two "unexpected" errors, the move of an earlier end to the next day, and its overflow on 9999-12-31 |
| Assembler.CloseRunning | journal_hours.py:183-189 | the end-of-input step returns what `Finish` specifies |
| Assembler.Finish | journal_hours.py:183-189 | the number of sections and every section's date stay as they were, and the sections change only when a start is pending, the last date is today and the start is before now |
| Assembler.StepBounds | journal_hours.py:150-181 | a line that fails cites its own index (except the "before any date" error and the overflow), and a line opens at most one section |
| Assembler.MarkerStepBounds | journal_hours.py:162-181 | a marker that fails cites its own index (with the same two exceptions), and a marker never opens or removes a section |
| Assembler.RunBounds | journal_hours.py:149-181 | an error of the loop cites the index of a line of the journal, and there are never more sections than lines |
| Assembler.ProcessBounds | journal_hours.py:145-191 | the same holds for what `process` returns: at most one section per line, and errors citing a line of the journal |
| Assembler.DateStepValid | journal_hours.py:154-159 | a date header keeps the loop invariant |
| Assembler.MarkerStepValid | journal_hours.py:162-181 | a marker keeps the loop invariant, and the interval it closes runs forward |
| Assembler.StepValid | journal_hours.py:150-181 | every line keeps the loop invariant: at most one pending start, the current date is the last section's, sections in strictly increasing date order, intervals running forward |
| Assembler.RunValid | journal_hours.py:150-181 | every journal prefix the loop accepts leaves a state satisfying the invariant |
| Assembler.ProcessWellFormed | journal_hours.py:145-191 | the result of `process` has its dates strictly increasing and no interval ending before it starts |
| Assembler.AppendWellFormed | journal_hours.py:178 | appending an interval that fits the last section keeps the sections well formed |
| Assembler.FinishWellFormed | journal_hours.py:183-189 | closing the open interval at the end of input keeps the sections well formed |
| Assembler.DateHeaderLine | journal_hours.py:154-159 | a header not later than the last section's date fails, citing the line and the date; otherwise exactly one new empty section is appended and the pending start is kept |
| Assembler.StartLine | journal_hours.py:168-172 | a start outside any date fails; a start while one is pending fails, citing the line; otherwise the pending list goes from empty to the one timestamp |
| Assembler.EndLine | journal_hours.py:173-181 | an end outside any date fails; an end with nothing pending fails, citing the line; an end that would be moved past 9999-12-31 fails with the overflow; otherwise the pending list is emptied, exactly one interval is appended to the last section, and no other section changes |
| Assembler.IgnoredLine | journal_hours.py:162-164 | a line that is neither a header nor a marker leaves the state unchanged |
| Assembler.CloseSameDay | journal_hours.py:176-177 | with start and end on one date, `start <= end < start + 1 day`; the end is moved by a day exactly when it is earlier than the start; equal times give an empty interval |
| Assembler.CloseLaterDay | journal_hours.py:174-178 | an end on a later date than its start is never moved, so the interval lasts more than the days in between |
| Assembler.PendingCarriesAcrossHeader | journal_hours.py:154-178 | a start pending across a new header is closed by the next end into the new section, with the end on the new date |
| Assembler.FinishLine | journal_hours.py:183-189 | at end of input the pending start becomes `(start, now)` in the last section only when the last date is today and the start is before now; otherwise it is dropped and nothing else changes |
| Assembler.TwoStartsFail | journal_hours.py:168-172 | two start markers in a row fail at the second one's line |
| Assembler.StartThenStart | journal_hours.py:168-172 | from any state the loop reaches (`RunValid`), a start accepted on one line makes a start on the next line fail |
| Assembler.NoDateNoMarker | journal_hours.py:194-208 | until the first header, a journal is accepted exactly when every line is ignored (and then nothing is recorded); otherwise it fails with the "before any date" error |
| Assembler.StepBeforeAnyDate | journal_hours.py:207-208 | before any header, a marker fails and every other non-header line is ignored |
| Assembler.RunErrorPersists | journal_hours.py:157-181 | an error raised on some line is the error of the whole journal |
| Aggregator.IntervalSum | journal_hours.py:214-218 | the loop returns the total of the interval durations |
| Aggregator.SumAppend | journal_hours.py:214-218 | the total of a concatenation is the sum of the totals, and the empty total is zero |
| Aggregator.SumCommutes | journal_hours.py:214-218 | the total does not depend on the order in which two lists are joined |
| Aggregator.SumNonNegative | journal_hours.py:214-218 | intervals that run forward add up to a non-negative total |
| Aggregator.AllIntervals | journal_hours.py:88-91 | every interval of every section is in the collected list, and nothing else is |
| Aggregator.TotalIsSumOfDays | journal_hours.py:88-112 | the total over all intervals equals the sum of the per-day totals the report prints |
| Aggregator.WellFormedTotalNonNegative | journal_hours.py:112-116 | the total over what `process` returns is never negative |
| Aggregator.FilterRange | journal_hours.py:54-62 | the filter keeps exactly the non-empty sections with `start <= date <= end`, and never adds any |
| Aggregator.FilterKeepsSelected | journal_hours.py:54-62 | a list whose sections all pass comes out unchanged and in order |
| Aggregator.FilterAppend | journal_hours.py:54-62 | filtering a concatenation filters each part and keeps them in order |
| Aggregator.FilterIdempotent | journal_hours.py:54-62 | filtering twice with the same bounds is filtering once |
| Aggregator.FilterWellFormed | journal_hours.py:54-62 | the filtered sections are still in strictly increasing date order, with forward intervals |
| Aggregator.ReportStart | journal_hours.py:64-68 | the `No intervals found.` error is raised exactly when no start date is given and no section is kept |
| Aggregator.ReportStartEarliest | journal_hours.py:54-68 | the report's start date, given or defaulted, is no later than any kept section's date, and the default is the first kept section's date |
| Aggregator.AmountDue | journal_hours.py:130-133 | the amount due is `max(0, gross - retainer)`: never negative, at least the difference, and either zero or the difference |
| Aggregator.SplitDuration | journal_hours.py:221-223 | the minutes field is in 0..59, and hours and minutes bracket the duration to the minute |
| Aggregator.SplitDurationUnique | journal_hours.py:221-223 | those are the only hours and minutes that bracket the duration |
| Aggregator.FormatDuration | journal_hours.py:224 | the text ends in `h`, two characters and `m` |
| Aggregator.FormatDurationMinutes | journal_hours.py:224 | the two characters before `m` are the minutes field, zero-padded |
| Aggregator.FormatDurationHours | journal_hours.py:224 | the text before `h` is the hours field in decimal with no leading zero, with a minus sign when it is negative |

## Left out

- Command-line parsing, file reading, printing and `sys.exit` are not modelled (journal_hours.py:21-47, 50-51, 64-142). These are I/O. The model starts from the list of lines and ends at the values that are printed.
- The check that the end date is not before the start date (journal_hours.py:36-47) is not modelled. It is argument validation with only an exit as its effect. The "invalid end date" branch is unreachable: an end date that is missing or fails to parse is replaced by today (journal_hours.py:35-37), so an invalid end date silently becomes today.
- The JSON output, `force_timestamp` and `time.mktime` are left out, because they go through local-time conversion in the C library.
- The clock (`date.today()`, `datetime.now()`) is not modelled. Its two readings are parameters.
- Floating point is not modelled. This covers `total_seconds()`, hours times rate, the per-day earnings and the weekly average (journal_hours.py:98-101, 113, 128, 135-139).
- AmountDue: takes the gross amount as a real, not a float. It models only the deduction at line 133. It does not model that a retainer of 0 skips the deduction (`if args.retainer`), or the crash when a retainer is given without a rate.
- The uses of the report's start date are not modelled: the printed header and the day count of the weekly average (journal_hours.py:80-84, 135-136). `ReportStart` models how it is chosen and when its `ValueError` aborts the run.
- The display switches `SHOW_INTERVALS` and `SHOW_DAILY_EARNINGS` are not modelled. Both are `False` constants.
- Classifier.ParseDate: accepts only the two-digit month and day and the four-digit year, written with the ASCII digits. `strptime` also accepts one-digit fields such as `2024-1-5`, a space-padded day such as `2024-01- 5`, and other Unicode decimal digits (its `\d` matches them). The model does not recognise those lines as dates.
- Classifier.ParseClock: the clock recogniser accepts only `HH:MM` with two ASCII digits each. `strptime` also accepts `9:05` and Unicode decimal digits. The model does not recognise such markers.
- Text.Strip: covers the whitespace characters `str.isspace()` accepts, with no Unicode normalisation.
- FormatDuration: models `divmod` on whole microseconds, rounding down as Python's `divmod` does. It does not model the float `total_seconds()` or the `round` calls on the float fields.
- `flatten` and run_many.py are not part of this model. Neither is used by `process` or by the totals.
