/**
 * The line classifier: `parse_date` and `parse_time` of journal_hours.py.
 *
 * A stripped journal line is a date header (`YYYY-MM-DD`), a time marker
 * (`start HH:MM` or `end HH:MM`), or anything else, which is ignored. The
 * recognisers accept exactly the two-digit (four for the year) forms.
 */
module Classifier {
  import opened Wrappers
  import opened Calendar
  import opened Text

  datatype Action = Start | End

  function ActionWord(a: Action): string {
    match a
    case Start => "start"
    case End => "end"
  }

  /**
   * `IntervalError`. Each kind but MarkerBeforeDate carries the 0-based index
   * of the offending line, as the message of the source does.
   */
  datatype IntervalError =
    | DateOutOfOrder(line: nat, date: Day)
    | MarkerBeforeDate
    | UnexpectedStart(line: nat)
    | UnexpectedEnd(line: nat)
    /**
     * Not an `IntervalError` in the source: the `OverflowError` that pushing
     * an end on 9999-12-31 to the next day raises, which names no line.
     */
    | Overflow

  /** What a line is, date tried first. */
  datatype LineKind =
    | DateHeader(day: Day)
    | Marker(action: Action, minute: MinuteOfDay)
    | Ignored

  // ---------------------------------------------------------------- dates

  predicate IsDateShape(s: string) {
    |s| == 10 && s[4] == '-' && s[7] == '-'
    && AllDigits(s[..4]) && AllDigits(s[5..7]) && AllDigits(s[8..])
  }

  /** `parse_date`: the day of a `YYYY-MM-DD` line naming a real date. */
  function ParseDate(s: string): (r: Option<Day>)
    ensures r.Some? ==> ' ' !in s
    ensures r.Some? ==> r.value <= MaxDay
  {
    if IsDateShape(s) then
      var y, m, d := DigitsValue(s[..4]), DigitsValue(s[5..7]), DigitsValue(s[8..]);
      if ValidDate(y, m, d) then
        assert forall k :: 0 <= k < 4 ==> s[k] == s[..4][k];
        assert forall k :: 5 <= k < 7 ==> s[k] == s[5..7][k - 5];
        assert forall k :: 8 <= k < 10 ==> s[k] == s[8..][k - 8];
        LastDate(y, m, d);
        Some(DayNumber(y, m, d))
      else None
    else None
  }

  /** The canonical `%Y-%m-%d` text of a valid date. */
  function DateText(y: int, m: int, d: int): (s: string)
    requires ValidDate(y, m, d)
    ensures |s| == 10
  {
    Padded(y, 4) + "-" + Padded(m, 2) + "-" + Padded(d, 2)
  }

  /** Every valid date's canonical text is recognised as that date. */
  lemma ParseDateText(y: int, m: int, d: int)
    requires ValidDate(y, m, d)
    ensures ParseDate(DateText(y, m, d)) == Some(DayNumber(y, m, d))
  {
    var s := DateText(y, m, d);
    assert s[..4] == Padded(y, 4);
    assert s[5..7] == Padded(m, 2);
    assert s[8..] == Padded(d, 2);
  }

  /** Only canonical texts of valid dates are recognised. */
  lemma ParseDateSome(s: string)
    requires ParseDate(s).Some?
    ensures exists y, m, d :: ValidDate(y, m, d) && s == DateText(y, m, d)
                              && ParseDate(s) == Some(DayNumber(y, m, d))
  {
    var y, m, d := DigitsValue(s[..4]), DigitsValue(s[5..7]), DigitsValue(s[8..]);
    DateShapeText(s);
    assert s == DateText(y, m, d);
  }

  /** A `DDDD-DD-DD` string is the padded rendering of its three fields. */
  lemma DateShapeText(s: string)
    requires IsDateShape(s)
    ensures DigitsValue(s[..4]) < 10000 && DigitsValue(s[5..7]) < 100 && DigitsValue(s[8..]) < 100
    ensures s == Padded(DigitsValue(s[..4]), 4) + "-" + Padded(DigitsValue(s[5..7]), 2) + "-" + Padded(DigitsValue(s[8..]), 2)
  {
    PaddedOfDigits(s[..4]);
    PaddedOfDigits(s[5..7]);
    PaddedOfDigits(s[8..]);
    assert s == s[..4] + [s[4]] + s[5..7] + [s[7]] + s[8..];
  }

  // ---------------------------------------------------------------- times

  /** `time.strptime(s, '%H:%M')` on the two-digit form. */
  function ParseClock(s: string): (r: Option<MinuteOfDay>)
    ensures r.Some? ==> |s| == 5 && s[2] == ':' && ' ' !in s
  {
    if |s| == 5 && s[2] == ':' && AllDigits(s[..2]) && AllDigits(s[3..]) then
      var h, m := DigitsValue(s[..2]), DigitsValue(s[3..]);
      assert forall k :: 0 <= k < 2 ==> s[k] == s[..2][k];
      assert forall k :: 3 <= k < 5 ==> s[k] == s[3..][k - 3];
      if h <= 23 && m <= 59 then Some(h * 60 + m) else None
    else None
  }

  /** The canonical `%H:%M` text of a time of day. */
  function TimeText(t: MinuteOfDay): (s: string)
    ensures |s| == 5
  {
    Padded(t / 60, 2) + ":" + Padded(t % 60, 2)
  }

  lemma ParseClockText(t: MinuteOfDay)
    ensures ParseClock(TimeText(t)) == Some(t)
  {
    var s := TimeText(t);
    assert s[..2] == Padded(t / 60, 2);
    assert s[3..] == Padded(t % 60, 2);
  }

  lemma ParseClockSome(s: string)
    requires ParseClock(s).Some?
    ensures s == TimeText(ParseClock(s).value)
  {
    PaddedOfDigits(s[..2]);
    PaddedOfDigits(s[3..]);
    var t := ParseClock(s).value;
    assert t / 60 == DigitsValue(s[..2]) && t % 60 == DigitsValue(s[3..]);
    assert s == s[..2] + ":" + s[3..];
  }

  /**
   * The shape part of `parse_time`: split at the first space, the head must
   * be `start` or `end` and the rest a clock time.
   */
  function ParseMarker(line: string): (r: Option<(Action, MinuteOfDay)>)
    ensures r.Some? ==> ' ' in line
  {
    var i := FirstIndex(line, ' ');
    if i == -1 then None
    else
      var action, rest := line[..i], line[i + 1..];
      if action != "start" && action != "end" then None
      else
        match ParseClock(rest)
        case None => None
        case Some(t) => Some((if action == "start" then Start else End, t))
  }

  /** The text of a marker, as the journal's author writes it. */
  function MarkerText(a: Action, t: MinuteOfDay): string {
    ActionWord(a) + " " + TimeText(t)
  }

  lemma ParseMarkerText(a: Action, t: MinuteOfDay)
    ensures ParseMarker(MarkerText(a, t)) == Some((a, t))
  {
    var line := MarkerText(a, t);
    var w := ActionWord(a);
    assert line[|w|] == ' ';
    assert ' ' !in w;
    assert line[..|w|] == w;
    assert FirstIndex(line, ' ') == |w|;
    assert line[|w| + 1..] == TimeText(t);
    ParseClockText(t);
  }

  lemma ParseMarkerSome(line: string)
    requires ParseMarker(line).Some?
    ensures line == MarkerText(ParseMarker(line).value.0, ParseMarker(line).value.1)
  {
    var i := FirstIndex(line, ' ');
    ParseClockSome(line[i + 1..]);
    assert line == line[..i] + " " + line[i + 1..];
  }

  /** A date header never reads as a marker: the two line kinds are disjoint. */
  lemma DateIsNotMarker(line: string)
    requires ParseDate(line).Some?
    ensures ParseMarker(line).None?
  {
  }

  /**
   * `parse_time`: no marker, a marker outside any date (the error), or the
   * marker's action with its time on the current date.
   */
  function ParseTime(line: string, currentDate: Option<Day>): (r: Result<Option<(Action, Timestamp)>, IntervalError>)
    ensures r.Err? <==> ParseMarker(line).Some? && currentDate.None?
    ensures r.Err? ==> r.error == MarkerBeforeDate
    ensures r == Ok(None) <==> ParseMarker(line).None?
    ensures r.Ok? && r.value.Some? ==>
      var (a, t) := ParseMarker(line).value;
      r.value.value == (a, AssembleDateTime(currentDate.value, t))
  {
    match ParseMarker(line)
    case None => Ok(None)
    case Some((a, t)) =>
      if currentDate.None? then Err(MarkerBeforeDate)
      else Ok(Some((a, AssembleDateTime(currentDate.value, t))))
  }

  /** The classification `process` makes of a stripped line. */
  function Classify(line: string): (k: LineKind)
    ensures k.DateHeader? <==> ParseDate(line).Some?
    ensures k.Marker? <==> ParseMarker(line).Some?
    ensures k.DateHeader? ==> k.day == ParseDate(line).value
    ensures k.Marker? ==> (k.action, k.minute) == ParseMarker(line).value
  {
    match ParseDate(line)
    case Some(d) => DateHeader(d)
    case None =>
      match ParseMarker(line)
      case Some((a, t)) => Marker(a, t)
      case None => Ignored
  }
}
