/**
 * The interval assembler: `process` of journal_hours.py.
 *
 * One pass over the lines keeps the current date, the pending start (a list
 * of zero or one timestamp, `current_interval` in the source) and the growing
 * list of day sections. The pure functions below give the meaning of one
 * line (Step), of a prefix of the journal (Run) and of the end of input
 * (Finish); the method Process is the source's loop, proved to compute
 * ProcessSpec. "Today" and "now" are parameters.
 */
module Assembler {
  import opened Wrappers
  import opened Calendar
  import opened Text
  import opened Classifier

  /** A closed interval `(start, end)`. */
  datatype Interval = Interval(start: Timestamp, end: Timestamp)

  /** One `(date, [intervals])` entry of `intervals_by_date`. */
  datatype Section = Section(date: Day, intervals: seq<Interval>)

  /** The three local variables of `process`. */
  datatype State = State(currentDate: Option<Day>, pending: seq<Timestamp>, sections: seq<Section>)

  const Initial: State := State(None, [], [])

  // ------------------------------------------------------------ invariants

  /** Day sections appear in strictly increasing date order. */
  predicate DatesIncreasing(sections: seq<Section>) {
    forall i, j :: 0 <= i < j < |sections| ==> sections[i].date < sections[j].date
  }

  /**
   * An interval of a section never runs backwards, and it started on the
   * section's date or on an earlier one (a start may be pending across a
   * date header).
   */
  predicate IntervalFits(iv: Interval, date: Day) {
    iv.start <= iv.end && DayOf(iv.start) <= date
  }

  predicate SectionWellFormed(s: Section) {
    forall k :: 0 <= k < |s.intervals| ==> IntervalFits(s.intervals[k], s.date)
  }

  predicate WellFormed(sections: seq<Section>) {
    DatesIncreasing(sections) && forall i :: 0 <= i < |sections| ==> SectionWellFormed(sections[i])
  }

  /**
   * The invariant of the loop of `process`: at most one pending start, a
   * current date exactly when some section exists (and then it is the last
   * section's date), a pending start only under a date and not after it.
   */
  predicate Valid(st: State) {
    && |st.pending| <= 1
    && (st.currentDate.None? <==> st.sections == [])
    && (st.sections != [] ==> st.currentDate == Some(st.sections[|st.sections| - 1].date))
    && (|st.pending| == 1 ==> st.currentDate.Some? && DayOf(st.pending[0]) <= st.currentDate.value)
    && WellFormed(st.sections)
  }

  // ------------------------------------------------------------ transitions

  /**
   * `intervals_by_date[-1][1].append(iv)`. With no section at all the source
   * would fail on the index; Valid rules that state out wherever a start is
   * pending, so the empty case only keeps the function total.
   */
  function AppendToLast(sections: seq<Section>, iv: Interval): (r: seq<Section>)
    ensures |r| == |sections|
    ensures sections != [] ==> && r[..|r| - 1] == sections[..|sections| - 1]
                               && r[|r| - 1].date == sections[|sections| - 1].date
                               && r[|r| - 1].intervals == sections[|sections| - 1].intervals + [iv]
  {
    if sections == [] then sections
    else
      var last := sections[|sections| - 1];
      sections[..|sections| - 1] + [Section(last.date, last.intervals + [iv])]
  }

  /** Pairing an end time with the pending start; an earlier end is pushed one day on. */
  function Close(start: Timestamp, end: Timestamp): (iv: Interval)
    ensures iv.start == start
    ensures iv.end == end || iv.end == end + MicrosPerDay
  {
    if start > end then Interval(start, end + MicrosPerDay) else Interval(start, end)
  }

  /**
   * Pushing an end one day on fails when the end already lies on the last
   * day a `datetime` can hold.
   */
  predicate PushOverflows(start: Timestamp, end: Timestamp) {
    start > end && DayOf(end + MicrosPerDay) > MaxDay
  }

  /** Lines 154-159: a date header opens a new section unless it is out of order. */
  function DateStep(st: State, n: nat, line: string): Result<State, IntervalError> {
    match ParseDate(line)
    case None => Ok(st)
    case Some(d) =>
      if |st.sections| > 0 && d <= st.sections[|st.sections| - 1].date then
        Err(DateOutOfOrder(n, d))
      else
        Ok(State(Some(d), st.pending, st.sections + [Section(d, [])]))
  }

  /** Lines 162-181: a marker opens or closes the pending interval. */
  function MarkerStep(st: State, n: nat, line: string): Result<State, IntervalError> {
    match ParseTime(line, st.currentDate)
    case Err(e) => Err(e)
    case Ok(None) => Ok(st)
    case Ok(Some((action, t))) =>
      match action
      case Start =>
        if |st.pending| == 0 then Ok(st.(pending := [t]))
        else Err(UnexpectedStart(n))
      case End =>
        if |st.pending| == 1 then
          if PushOverflows(st.pending[0], t) then Err(Overflow)
          else Ok(st.(pending := [], sections := AppendToLast(st.sections, Close(st.pending[0], t))))
        else Err(UnexpectedEnd(n))
  }

  /** One iteration of the loop of `process` on line number n. */
  function Step(st: State, n: nat, line: string): Result<State, IntervalError> {
    var l := Strip(line);
    match DateStep(st, n, l)
    case Err(e) => Err(e)
    case Ok(st') => MarkerStep(st', n, l)
  }

  /** The state after the loop has consumed all of `lines`, or its first error. */
  function Run(lines: seq<string>): Result<State, IntervalError> {
    if lines == [] then Ok(Initial)
    else
      match Run(lines[..|lines| - 1])
      case Err(e) => Err(e)
      case Ok(st) => Step(st, |lines| - 1, lines[|lines| - 1])
  }

  /** Lines 184-189: the pending start is closed at `now` only on today's date. */
  function Finish(st: State, today: Day, now: Timestamp): (r: seq<Section>)
    ensures |r| == |st.sections|
    ensures forall i :: 0 <= i < |r| ==> r[i].date == st.sections[i].date
    ensures r != st.sections ==> |st.pending| == 1 && st.currentDate == Some(today) && st.pending[0] < now
  {
    if |st.pending| == 1 && st.currentDate == Some(today) && st.pending[0] < now then
      AppendToLast(st.sections, Interval(st.pending[0], now))
    else st.sections
  }

  /** `process(lines)` with the clock's today and now as parameters. */
  function ProcessSpec(lines: seq<string>, today: Day, now: Timestamp): Result<seq<Section>, IntervalError> {
    match Run(lines)
    case Err(e) => Err(e)
    case Ok(st) => Ok(Finish(st, today, now))
  }

  // ------------------------------------------------------------ the invariant

  lemma DateStepValid(st: State, n: nat, line: string)
    requires Valid(st)
    ensures DateStep(st, n, line).Ok? ==> Valid(DateStep(st, n, line).value)
  {
  }

  lemma MarkerStepValid(st: State, n: nat, line: string)
    requires Valid(st)
    ensures MarkerStep(st, n, line).Ok? ==> Valid(MarkerStep(st, n, line).value)
  {
    var r := MarkerStep(st, n, line);
    if r.Ok? && r.value.sections != st.sections {
      var t := ParseTime(line, st.currentDate).value.value.1;
      DayOfBounds(st.pending[0]);
      DayOfBounds(t);
      var iv := Close(st.pending[0], t);
      assert IntervalFits(iv, st.currentDate.value);
    }
  }

  /** Every line keeps the invariant of the loop. */
  lemma StepValid(st: State, n: nat, line: string)
    requires Valid(st)
    ensures Step(st, n, line).Ok? ==> Valid(Step(st, n, line).value)
  {
    var l := Strip(line);
    DateStepValid(st, n, l);
    if DateStep(st, n, l).Ok? {
      MarkerStepValid(DateStep(st, n, l).value, n, l);
    }
  }

  /** Every prefix of a journal that `process` accepts leaves a valid state. */
  lemma {:induction false} RunValid(lines: seq<string>)
    ensures Run(lines).Ok? ==> Valid(Run(lines).value)
  {
    if lines != [] {
      var init := lines[..|lines| - 1];
      RunValid(init);
      if Run(init).Ok? {
        StepValid(Run(init).value, |lines| - 1, lines[|lines| - 1]);
      }
    }
  }

  /**
   * What `process` returns is well formed: sections in strictly increasing
   * date order, and no interval that ends before it starts.
   */
  lemma ProcessWellFormed(lines: seq<string>, today: Day, now: Timestamp)
    ensures ProcessSpec(lines, today, now).Ok? ==> WellFormed(ProcessSpec(lines, today, now).value)
  {
    RunValid(lines);
    if Run(lines).Ok? {
      FinishWellFormed(Run(lines).value, today, now);
    }
  }

  /** Appending an interval that fits the last section keeps the sections well formed. */
  lemma AppendWellFormed(sections: seq<Section>, iv: Interval)
    requires WellFormed(sections) && sections != []
    requires IntervalFits(iv, sections[|sections| - 1].date)
    ensures WellFormed(AppendToLast(sections, iv))
  {
    var r := AppendToLast(sections, iv);
    var k := |sections| - 1;
    assert forall i :: 0 <= i < k ==> r[i] == sections[i];
    assert SectionWellFormed(r[k]) by {
      assert forall j :: 0 <= j < |r[k].intervals| - 1 ==> r[k].intervals[j] == sections[k].intervals[j];
    }
  }

  /** Closing the pending start at the end of input keeps the sections well formed. */
  lemma FinishWellFormed(st: State, today: Day, now: Timestamp)
    requires Valid(st)
    ensures WellFormed(Finish(st, today, now))
  {
    if |st.pending| == 1 && st.currentDate == Some(today) && st.pending[0] < now {
      AppendWellFormed(st.sections, Interval(st.pending[0], now));
    }
  }

  // ------------------------------------------------------------ one line at a time

  /**
   * A date header is rejected, citing its line, unless it is later than the
   * last section's date; otherwise it opens exactly one new empty section
   * and leaves the pending start alone.
   */
  lemma DateHeaderLine(st: State, n: nat, line: string, d: Day)
    requires ParseDate(Strip(line)) == Some(d)
    ensures Step(st, n, line) ==
      if |st.sections| > 0 && d <= st.sections[|st.sections| - 1].date then Err(DateOutOfOrder(n, d))
      else Ok(State(Some(d), st.pending, st.sections + [Section(d, [])]))
  {
    DateIsNotMarker(Strip(line));
  }

  /**
   * A start marker fails outside any date, fails citing its line while a
   * start is pending, and otherwise records its time on the current date as
   * the only pending start.
   */
  lemma StartLine(st: State, n: nat, line: string, t: MinuteOfDay)
    requires Valid(st)
    requires ParseMarker(Strip(line)) == Some((Start, t))
    ensures Step(st, n, line) ==
      if st.currentDate.None? then Err(MarkerBeforeDate)
      else if |st.pending| == 1 then Err(UnexpectedStart(n))
      else Ok(State(st.currentDate, [AssembleDateTime(st.currentDate.value, t)], st.sections))
  {
  }

  /**
   * An end marker fails outside any date, fails citing its line with no
   * pending start, and otherwise empties the pending list and appends one
   * interval to the last section, leaving every other section as it was.
   */
  lemma EndLine(st: State, n: nat, line: string, t: MinuteOfDay)
    requires Valid(st)
    requires ParseMarker(Strip(line)) == Some((End, t))
    ensures st.currentDate.None? ==> Step(st, n, line) == Err(MarkerBeforeDate)
    ensures st.currentDate.Some? && st.pending == [] ==> Step(st, n, line) == Err(UnexpectedEnd(n))
    ensures st.currentDate.Some? && |st.pending| == 1
            && PushOverflows(st.pending[0], AssembleDateTime(st.currentDate.value, t)) ==>
      Step(st, n, line) == Err(Overflow)
    ensures st.currentDate.Some? && |st.pending| == 1
            && !PushOverflows(st.pending[0], AssembleDateTime(st.currentDate.value, t)) ==>
      var r := Step(st, n, line);
      var k := |st.sections|;
      && r.Ok? && r.value.pending == [] && r.value.currentDate == st.currentDate
      && |r.value.sections| == k
      && r.value.sections[..k - 1] == st.sections[..k - 1]
      && r.value.sections[k - 1].date == st.sections[k - 1].date
      && r.value.sections[k - 1].intervals
         == st.sections[k - 1].intervals + [Close(st.pending[0], AssembleDateTime(st.currentDate.value, t))]
  {
  }

  /** A line that is neither a date header nor a marker changes nothing. */
  lemma IgnoredLine(st: State, n: nat, line: string)
    requires Classify(Strip(line)) == Ignored
    ensures Step(st, n, line) == Ok(st)
  {
  }

  /**
   * Within one date, an end time is moved to the next day exactly when it is
   * earlier than the start, so the interval runs forward and lasts less than
   * a day; equal times give an empty interval.
   */
  lemma CloseSameDay(start: Timestamp, end: Timestamp)
    requires DayOf(start) == DayOf(end)
    ensures Close(start, end).start <= Close(start, end).end < start + MicrosPerDay
    ensures Close(start, end).end == end + MicrosPerDay <==> end < start
    ensures Close(start, end).end == start <==> end == start
  {
    DayOfBounds(start);
    DayOfBounds(end);
  }

  /**
   * For an end on a date (at most 9999-12-31), the push overflows exactly
   * when the end is earlier than the start and falls on 9999-12-31; an end
   * that is not pushed, or pushed without overflow, stays on a date.
   */
  lemma CloseOverflow(start: Timestamp, end: Timestamp)
    requires DayOf(end) <= MaxDay
    ensures PushOverflows(start, end) <==> start > end && DayOf(end) == MaxDay
    ensures !PushOverflows(start, end) ==> DayOf(Close(start, end).end) <= MaxDay
  {
    DayOfBounds(end);
    DayOfBounds(end + MicrosPerDay);
  }

  /**
   * An end on a later date than its start (the start was pending across a
   * date header) is never moved, and the interval may last days.
   */
  lemma CloseLaterDay(start: Timestamp, end: Timestamp)
    requires DayOf(start) < DayOf(end)
    ensures Close(start, end) == Interval(start, end)
    ensures end - start > (DayOf(end) - DayOf(start) - 1) * MicrosPerDay
  {
    DayOfBounds(start);
    DayOfBounds(end);
  }

  /**
   * A start pending across a date header is closed by the next end in the new
   * section, with the end on the new date.
   */
  lemma PendingCarriesAcrossHeader(st: State, n: nat, header: string, d: Day, endLine: string, t: MinuteOfDay)
    requires Valid(st) && |st.pending| == 1
    requires ParseDate(Strip(header)) == Some(d) && d > st.sections[|st.sections| - 1].date
    requires ParseMarker(Strip(endLine)) == Some((End, t))
    ensures Step(st, n, header).Ok?
    ensures Step(Step(st, n, header).value, n + 1, endLine)
         == Ok(State(Some(d), [], st.sections + [Section(d, [Interval(st.pending[0], AssembleDateTime(d, t))])]))
  {
    var mid := State(Some(d), st.pending, st.sections + [Section(d, [])]);
    DateHeaderLine(st, n, header, d);
    assert Step(st, n, header) == Ok(mid);
    assert Valid(mid) by {
      StepValid(st, n, header);
    }
    var te := AssembleDateTime(d, t);
    CloseLaterDay(st.pending[0], te);
    EndLine(mid, n + 1, endLine, t);
    var r := Step(mid, n + 1, endLine).value;
    var k := |mid.sections|;
    assert r.sections[..k - 1] == st.sections;
    assert r.sections[k - 1] == Section(d, [Interval(st.pending[0], te)]);
    assert r.sections == st.sections + [Section(d, [Interval(st.pending[0], te)])];
  }

  /**
   * At end of input the pending start becomes the interval (start, now) only
   * when the last date is today and the start is before now; otherwise it is
   * dropped and the sections are returned as they are.
   */
  lemma FinishLine(st: State, today: Day, now: Timestamp)
    requires Valid(st)
    ensures var r := Finish(st, today, now);
      var k := |st.sections|;
      if |st.pending| == 1 && st.currentDate == Some(today) && st.pending[0] < now then
        && |r| == k && r[..k - 1] == st.sections[..k - 1]
        && r[k - 1] == Section(today, st.sections[k - 1].intervals + [Interval(st.pending[0], now)])
      else r == st.sections
  {
  }

  // ------------------------------------------------------------ whole journals

  /**
   * A line fails citing its own number (unless it is a marker outside any
   * date, or an overflow), and opens at most one section.
   */
  lemma StepBounds(st: State, n: nat, line: string)
    ensures var r := Step(st, n, line);
      && (r.Err? && !r.error.MarkerBeforeDate? && !r.error.Overflow? ==> r.error.line == n)
      && (r.Ok? ==> |st.sections| <= |r.value.sections| <= |st.sections| + 1)
  {
    var l := Strip(line);
    var dated := DateStep(st, n, l);
    if dated.Ok? {
      assert |st.sections| <= |dated.value.sections| <= |st.sections| + 1;
      MarkerStepBounds(dated.value, n, l);
    } else {
      assert dated.error == DateOutOfOrder(n, ParseDate(l).value);
    }
  }

  /** A marker fails citing its own number or outside any date, and keeps the section count. */
  lemma MarkerStepBounds(st: State, n: nat, line: string)
    ensures var r := MarkerStep(st, n, line);
      && (r.Err? && !r.error.MarkerBeforeDate? && !r.error.Overflow? ==> r.error.line == n)
      && (r.Ok? ==> |r.value.sections| == |st.sections|)
  {
  }

  /** An error cites a line of the journal, and there is at most one section per line. */
  lemma {:induction false} RunBounds(lines: seq<string>)
    ensures var r := Run(lines);
      && (r.Err? && !r.error.MarkerBeforeDate? && !r.error.Overflow? ==> r.error.line < |lines|)
      && (r.Ok? ==> |r.value.sections| <= |lines|)
  {
    if lines != [] {
      var init := lines[..|lines| - 1];
      RunBounds(init);
      if Run(init).Ok? {
        StepBounds(Run(init).value, |lines| - 1, lines[|lines| - 1]);
      }
    }
  }

  /** What `process` returns has at most one section per line; its errors cite a line of it. */
  lemma ProcessBounds(lines: seq<string>, today: Day, now: Timestamp)
    ensures var r := ProcessSpec(lines, today, now);
      && (r.Err? && !r.error.MarkerBeforeDate? && !r.error.Overflow? ==> r.error.line < |lines|)
      && (r.Ok? ==> |r.value| <= |lines|)
  {
    RunBounds(lines);
  }

  /** Two start markers in a row fail at the second one. */
  lemma TwoStartsFail(lines: seq<string>, a: string, b: string, t1: MinuteOfDay, t2: MinuteOfDay)
    requires ParseMarker(Strip(a)) == Some((Start, t1))
    requires ParseMarker(Strip(b)) == Some((Start, t2))
    requires Run(lines + [a]).Ok?
    ensures Run(lines + [a] + [b]) == Err(UnexpectedStart(|lines| + 1))
  {
    RunAppend(lines, a);
    assert Run(lines).Ok?;
    var st := Run(lines).value;
    assert Run(lines + [a]) == Step(st, |lines|, a);
    RunValid(lines);
    StartThenStart(st, |lines|, a, b, t1, t2);
    RunAppend(lines + [a], b);
    assert |lines + [a]| == |lines| + 1;
  }

  /** From any valid state, a start accepted on line n makes a start on line n + 1 fail. */
  lemma StartThenStart(st: State, n: nat, a: string, b: string, t1: MinuteOfDay, t2: MinuteOfDay)
    requires Valid(st)
    requires ParseMarker(Strip(a)) == Some((Start, t1))
    requires ParseMarker(Strip(b)) == Some((Start, t2))
    requires Step(st, n, a).Ok?
    ensures Step(Step(st, n, a).value, n + 1, b) == Err(UnexpectedStart(n + 1))
  {
    StartLine(st, n, a, t1);
    var mid := Step(st, n, a).value;
    StartLine(mid, n + 1, b, t2);
  }

  /** A line `process` skips: neither a date header nor a marker. */
  predicate IsIgnored(line: string) {
    Classify(Strip(line)) == Ignored
  }

  /** Every line of the journal is one `process` skips. */
  predicate AllIgnored(lines: seq<string>) {
    lines == [] || (AllIgnored(lines[..|lines| - 1]) && IsIgnored(lines[|lines| - 1]))
  }

  /**
   * Until the first date header, a journal may hold nothing but ignored
   * lines: it leaves the initial state when every line is ignored, and
   * otherwise fails because a marker came before any date.
   */
  lemma {:induction false} NoDateNoMarker(lines: seq<string>)
    requires forall i :: 0 <= i < |lines| ==> ParseDate(Strip(lines[i])).None?
    ensures Run(lines) == if AllIgnored(lines) then Ok(Initial) else Err(MarkerBeforeDate)
  {
    if lines != [] {
      var init := lines[..|lines| - 1];
      NoDateNoMarker(init);
      if AllIgnored(init) {
        StepBeforeAnyDate(|lines| - 1, lines[|lines| - 1]);
      }
    }
  }

  /** From the initial state, a line that is not a date header is ignored or fails. */
  lemma StepBeforeAnyDate(n: nat, line: string)
    requires ParseDate(Strip(line)).None?
    ensures Step(Initial, n, line) == if Classify(Strip(line)) == Ignored then Ok(Initial) else Err(MarkerBeforeDate)
  {
  }

  // ------------------------------------------------------------ the loop

  /** Run on one more line is one more Step. */
  lemma RunSnoc(lines: seq<string>, n: nat)
    requires n < |lines|
    ensures Run(lines[..n + 1]) == match Run(lines[..n])
      case Err(e) => Err(e)
      case Ok(st) => Step(st, n, lines[n])
  {
    assert lines[..n + 1][..n] == lines[..n];
  }

  /** Run on a journal with one more line at its end is one more Step. */
  lemma RunAppend(lines: seq<string>, line: string)
    ensures Run(lines + [line]) == match Run(lines)
      case Err(e) => Err(e)
      case Ok(st) => Step(st, |lines|, line)
  {
    assert (lines + [line])[..|lines|] == lines;
  }

  /** Once a prefix fails, the whole journal fails with the same error. */
  lemma {:induction false} RunErrorPersists(lines: seq<string>, i: nat)
    requires i <= |lines|
    requires Run(lines[..i]).Err?
    ensures Run(lines) == Run(lines[..i])
  {
    if i < |lines| {
      var init := lines[..|lines| - 1];
      assert init[..i] == lines[..i];
      RunErrorPersists(init, i);
    } else {
      assert lines[..i] == lines;
    }
  }

  /**
   * The body of the loop of `process` for line number n: the date header
   * check, then the pairing of start and end markers.
   */
  method ProcessLine(st: State, lineNumber: nat, rawLine: string) returns (r: Result<State, IntervalError>)
    requires Valid(st)
    ensures r == Step(st, lineNumber, rawLine)
  {
    var currentDate, intervalsByDate := st.currentDate, st.sections;
    var line := Strip(rawLine);

    // Try to find a date.
    var d := ParseDate(line);
    if d.Some? {
      currentDate := d;
      if |intervalsByDate| > 0 && d.value <= intervalsByDate[|intervalsByDate| - 1].date {
        return Err(DateOutOfOrder(lineNumber, d.value));
      }
      intervalsByDate := intervalsByDate + [Section(d.value, [])];
    }
    var dated := State(currentDate, st.pending, intervalsByDate);
    assert DateStep(st, lineNumber, line) == Ok(dated);
    DateStepValid(st, lineNumber, line);

    // Try to find a start or end time.
    r := PairMarker(dated, lineNumber, line);
  }

  /**
   * Lines 162-181 of the loop body: a start marker opens the pending
   * interval, an end marker closes it, pushed to the next day when it is
   * earlier than the start.
   */
  method PairMarker(st: State, lineNumber: nat, line: string) returns (r: Result<State, IntervalError>)
    requires Valid(st)
    ensures r == MarkerStep(st, lineNumber, line)
  {
    var currentDate, currentInterval, intervalsByDate := st.currentDate, st.pending, st.sections;
    var timeResult := ParseTime(line, currentDate);
    if timeResult.Err? {
      return Err(timeResult.error);
    }
    if timeResult.value.None? {
      return Ok(st);
    }

    // Ensure that each timestamp is part of a pair.
    var (action, t) := timeResult.value.value;
    if action == Start {
      if |currentInterval| == 0 {
        currentInterval := currentInterval + [t];
        assert currentInterval == [t];
      } else {
        return Err(UnexpectedStart(lineNumber));
      }
    } else {
      if |currentInterval| == 1 {
        ghost var iv := Close(currentInterval[0], t);
        currentInterval := currentInterval + [t];
        assert currentInterval == [st.pending[0], t];
        if currentInterval[0] > currentInterval[1] {
          if DayOf(currentInterval[1] + MicrosPerDay) > MaxDay {
            return Err(Overflow);
          }
          currentInterval := [currentInterval[0], currentInterval[1] + MicrosPerDay];
        }
        assert Interval(currentInterval[0], currentInterval[1]) == iv;
        var last := intervalsByDate[|intervalsByDate| - 1];
        intervalsByDate := intervalsByDate[..|intervalsByDate| - 1]
          + [Section(last.date, last.intervals + [Interval(currentInterval[0], currentInterval[1])])];
        currentInterval := [];
        assert intervalsByDate == AppendToLast(st.sections, iv);
      } else {
        return Err(UnexpectedEnd(lineNumber));
      }
    }
    return Ok(State(currentDate, currentInterval, intervalsByDate));
  }

  /** `process`: the loop over all lines, then the closing of a running interval. */
  method Process(lines: seq<string>, today: Day, now: Timestamp) returns (r: Result<seq<Section>, IntervalError>)
    ensures r == ProcessSpec(lines, today, now)
  {
    var currentDate: Option<Day> := None;
    var currentInterval: seq<Timestamp> := [];
    var intervalsByDate: seq<Section> := [];

    for lineNumber := 0 to |lines|
      invariant Run(lines[..lineNumber]) == Ok(State(currentDate, currentInterval, intervalsByDate))
    {
      RunSnoc(lines, lineNumber);
      RunValid(lines[..lineNumber]);
      var next := ProcessLine(State(currentDate, currentInterval, intervalsByDate), lineNumber, lines[lineNumber]);
      if next.Err? {
        RunErrorPersists(lines, lineNumber + 1);
        return Err(next.error);
      }
      currentDate, currentInterval, intervalsByDate := next.value.currentDate, next.value.pending, next.value.sections;
    }
    assert lines[..|lines|] == lines;
    RunValid(lines);
    var sections := CloseRunning(State(currentDate, currentInterval, intervalsByDate), today, now);
    return Ok(sections);
  }

  /** Lines 183-189: an interval still open on today's date is closed right now. */
  method CloseRunning(st: State, today: Day, now: Timestamp) returns (sections: seq<Section>)
    requires Valid(st)
    ensures sections == Finish(st, today, now)
  {
    var currentInterval, intervalsByDate := st.pending, st.sections;
    if |currentInterval| == 1 {
      if st.currentDate == Some(today) {
        if currentInterval[0] < now {
          currentInterval := currentInterval + [now];
          assert currentInterval == [st.pending[0], now];
          var last := intervalsByDate[|intervalsByDate| - 1];
          intervalsByDate := intervalsByDate[..|intervalsByDate| - 1]
            + [Section(last.date, last.intervals + [Interval(currentInterval[0], currentInterval[1])])];
        }
      }
    }
    return intervalsByDate;
  }
}
