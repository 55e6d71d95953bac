/**
 * Aggregation over the sections `process` returns: `interval_sum`, the
 * date-range filter of `main`, the total over all sections, the retainer
 * floor and `format_timedelta`.
 */
module Aggregator {
  import opened Wrappers
  import opened Calendar
  import opened Text
  import opened Assembler

  // ------------------------------------------------------------ sums

  /** `end - start` of one interval, in microseconds. */
  function Duration(iv: Interval): int {
    iv.end - iv.start
  }

  /** The total of the durations, accumulated front to back. */
  function Sum(ivs: seq<Interval>): int {
    if ivs == [] then 0 else Sum(ivs[..|ivs| - 1]) + Duration(ivs[|ivs| - 1])
  }

  /** `interval_sum`: the loop that accumulates `total`. */
  method IntervalSum(intervals: seq<Interval>) returns (total: int)
    ensures total == Sum(intervals)
  {
    total := 0;
    for i := 0 to |intervals|
      invariant total == Sum(intervals[..i])
    {
      assert intervals[..i + 1][..i] == intervals[..i];
      var iv := intervals[i];
      total := total + (iv.end - iv.start);
    }
    assert intervals[..|intervals|] == intervals;
  }

  /** The sum of a concatenation is the sum of the sums; the empty sum is zero. */
  lemma {:induction false} SumAppend(a: seq<Interval>, b: seq<Interval>)
    ensures Sum(a + b) == Sum(a) + Sum(b)
  {
    if b == [] {
      assert a + b == a;
    } else {
      var b' := b[..|b| - 1];
      assert (a + b)[..|a + b| - 1] == a + b';
      SumAppend(a, b');
    }
  }

  /** The order in which two lists are concatenated does not change the total. */
  lemma SumCommutes(a: seq<Interval>, b: seq<Interval>)
    ensures Sum(a + b) == Sum(b + a)
  {
    SumAppend(a, b);
    SumAppend(b, a);
  }

  /** Intervals that run forward add up to a non-negative total. */
  lemma {:induction false} SumNonNegative(ivs: seq<Interval>)
    requires forall k :: 0 <= k < |ivs| ==> ivs[k].start <= ivs[k].end
    ensures Sum(ivs) >= 0
  {
    if ivs != [] {
      SumNonNegative(ivs[..|ivs| - 1]);
    }
  }

  /** `all_intervals`: every section's intervals, one section after another. */
  function AllIntervals(sections: seq<Section>): (r: seq<Interval>)
    ensures forall i, k :: 0 <= i < |sections| && 0 <= k < |sections[i].intervals| ==> sections[i].intervals[k] in r
    ensures forall iv :: iv in r ==> exists i :: 0 <= i < |sections| && iv in sections[i].intervals
  {
    if sections == [] then []
    else AllIntervals(sections[..|sections| - 1]) + sections[|sections| - 1].intervals
  }

  /** The sum of the per-day totals the report prints. */
  function SumOfDays(sections: seq<Section>): int {
    if sections == [] then 0
    else SumOfDays(sections[..|sections| - 1]) + Sum(sections[|sections| - 1].intervals)
  }

  /** The reported total time is the sum of the daily totals. */
  lemma {:induction false} TotalIsSumOfDays(sections: seq<Section>)
    ensures Sum(AllIntervals(sections)) == SumOfDays(sections)
  {
    if sections != [] {
      var init := sections[..|sections| - 1];
      TotalIsSumOfDays(init);
      SumAppend(AllIntervals(init), sections[|sections| - 1].intervals);
    }
  }

  /** The total of well-formed sections is never negative. */
  lemma {:induction false} WellFormedTotalNonNegative(sections: seq<Section>)
    requires WellFormed(sections)
    ensures SumOfDays(sections) >= 0
  {
    if sections != [] {
      var init := sections[..|sections| - 1];
      assert WellFormed(init) by {
        assert forall i :: 0 <= i < |init| ==> init[i] == sections[i];
      }
      WellFormedTotalNonNegative(init);
      var last := sections[|sections| - 1];
      assert SectionWellFormed(last);
      SumNonNegative(last.intervals);
    }
  }

  // ------------------------------------------------------------ the range filter

  /** The condition of the comprehension in `main`. */
  predicate Selected(s: Section, startDate: Option<Day>, endDate: Option<Day>) {
    && |s.intervals| > 0
    && (startDate.None? || s.date >= startDate.value)
    && (endDate.None? || s.date <= endDate.value)
  }

  /** The comprehension in `main`: the selected sections, in their order. */
  function FilterRange(sections: seq<Section>, startDate: Option<Day>, endDate: Option<Day>): (r: seq<Section>)
    ensures |r| <= |sections|
    ensures forall s :: s in r <==> s in sections && Selected(s, startDate, endDate)
  {
    if sections == [] then []
    else
      (if Selected(sections[0], startDate, endDate) then [sections[0]] else [])
        + FilterRange(sections[1..], startDate, endDate)
  }

  /** Filtering a concatenation filters each part and keeps them in order. */
  lemma {:induction false} FilterAppend(a: seq<Section>, b: seq<Section>, startDate: Option<Day>, endDate: Option<Day>)
    ensures FilterRange(a + b, startDate, endDate) == FilterRange(a, startDate, endDate) + FilterRange(b, startDate, endDate)
  {
    if a == [] {
      assert a + b == b;
    } else {
      assert (a + b)[1..] == a[1..] + b;
      assert (a + b)[0] == a[0];
      FilterAppend(a[1..], b, startDate, endDate);
    }
  }

  /** A list whose every section is selected passes the filter unchanged, in its order. */
  lemma {:induction false} FilterKeepsSelected(sections: seq<Section>, startDate: Option<Day>, endDate: Option<Day>)
    requires forall i :: 0 <= i < |sections| ==> Selected(sections[i], startDate, endDate)
    ensures FilterRange(sections, startDate, endDate) == sections
  {
    if sections != [] {
      FilterKeepsSelected(sections[1..], startDate, endDate);
      assert [sections[0]] + sections[1..] == sections;
    }
  }

  /** Filtering twice with the same bounds is filtering once. */
  lemma {:induction false} FilterIdempotent(sections: seq<Section>, startDate: Option<Day>, endDate: Option<Day>)
    ensures FilterRange(FilterRange(sections, startDate, endDate), startDate, endDate)
         == FilterRange(sections, startDate, endDate)
  {
    if sections != [] {
      var rest := FilterRange(sections[1..], startDate, endDate);
      FilterIdempotent(sections[1..], startDate, endDate);
      if Selected(sections[0], startDate, endDate) {
        var r := [sections[0]] + rest;
        assert r[0] == sections[0] && r[1..] == rest;
      } else {
        assert FilterRange(sections, startDate, endDate) == rest;
      }
    }
  }

  /** The selected sections of a well-formed list are well formed, so still in date order. */
  lemma {:induction false} FilterWellFormed(sections: seq<Section>, startDate: Option<Day>, endDate: Option<Day>)
    requires WellFormed(sections)
    ensures WellFormed(FilterRange(sections, startDate, endDate))
  {
    if sections != [] {
      var rest := sections[1..];
      assert WellFormed(rest);
      FilterWellFormed(rest, startDate, endDate);
      var fr := FilterRange(rest, startDate, endDate);
      if Selected(sections[0], startDate, endDate) {
        var r := [sections[0]] + fr;
        forall i, j | 0 <= i < j < |r| ensures r[i].date < r[j].date {
          if i == 0 {
            assert r[j] in fr;
            assert r[j] in rest;
          } else {
            assert r[i] == fr[i - 1] && r[j] == fr[j - 1];
          }
        }
        forall i | 0 <= i < |r| ensures SectionWellFormed(r[i]) {
          if i > 0 {
            assert r[i] == fr[i - 1];
          }
        }
      }
    }
  }

  /**
   * Lines 64-68 of `main`: without a given start date the report starts on
   * the first kept section's date. `None` is the `ValueError('No intervals
   * found.')` raised when no start date is given and nothing was kept.
   */
  function ReportStart(kept: seq<Section>, startDate: Option<Day>): (r: Option<Day>)
    ensures r.None? <==> startDate.None? && kept == []
  {
    if startDate.Some? then startDate
    else if kept == [] then None
    else Some(kept[0].date)
  }

  /**
   * The report's start date, given or defaulted, is no later than any kept
   * section's date; the default is the date of a kept section.
   */
  lemma ReportStartEarliest(sections: seq<Section>, startDate: Option<Day>, endDate: Option<Day>)
    requires WellFormed(sections)
    ensures var kept := FilterRange(sections, startDate, endDate);
      var r := ReportStart(kept, startDate);
      && (r.Some? ==> forall i :: 0 <= i < |kept| ==> r.value <= kept[i].date)
      && (startDate.None? && kept != [] ==> r == Some(kept[0].date))
  {
    var kept := FilterRange(sections, startDate, endDate);
    if startDate.Some? {
      forall i | 0 <= i < |kept| ensures startDate.value <= kept[i].date {
        assert kept[i] in kept;
      }
    } else if kept != [] {
      FilterWellFormed(sections, startDate, endDate);
    }
  }

  // ------------------------------------------------------------ amounts and text

  /** Line 133: the amount due once the retainer is deducted, never below zero. */
  function AmountDue(gross: real, retainer: int): (due: real)
    ensures due >= 0.0
    ensures due >= gross - retainer as real
    ensures due == 0.0 || due == gross - retainer as real
  {
    if gross - retainer as real > 0.0 then gross - retainer as real else 0.0
  }

  /**
   * `divmod` of a duration by an hour, then of the rest by a minute: whole
   * hours and a minutes field in 0..59 (seconds are dropped).
   */
  function SplitDuration(micros: int): (hm: (int, int))
    ensures 0 <= hm.1 < 60
    ensures hm.0 * MicrosPerHour + hm.1 * MicrosPerMinute <= micros
    ensures micros < hm.0 * MicrosPerHour + (hm.1 + 1) * MicrosPerMinute
  {
    (micros / MicrosPerHour, (micros % MicrosPerHour) / MicrosPerMinute)
  }

  /** The hours and minutes fields are the only ones that bracket the duration. */
  lemma SplitDurationUnique(micros: int, h: int, m: int)
    requires 0 <= m < 60
    requires h * MicrosPerHour + m * MicrosPerMinute <= micros < h * MicrosPerHour + (m + 1) * MicrosPerMinute
    ensures SplitDuration(micros) == (h, m)
  {
    var (h', m') := SplitDuration(micros);
    assert h * MicrosPerHour <= micros < (h + 1) * MicrosPerHour;
    assert h' * MicrosPerHour <= micros < (h' + 1) * MicrosPerHour;
  }

  /** `format_timedelta`: `<hours>h<MM>m`. */
  function FormatDuration(micros: int): (s: string)
    ensures |s| >= 5 && s[|s| - 1] == 'm' && s[|s| - 4] == 'h'
  {
    var (h, m) := SplitDuration(micros);
    IntToDecimal(h) + "h" + Padded(m, 2) + "m"
  }

  /** The two characters before the final `m` are the minutes field, zero-padded. */
  lemma FormatDurationMinutes(micros: int)
    ensures var s := FormatDuration(micros);
      AllDigits(s[|s| - 3..|s| - 1]) && DigitsValue(s[|s| - 3..|s| - 1]) == SplitDuration(micros).1
  {
    var (h, m) := SplitDuration(micros);
    var head := IntToDecimal(h);
    var s := FormatDuration(micros);
    assert s == head + "h" + Padded(m, 2) + "m";
    assert s[|head| + 1..|head| + 3] == Padded(m, 2);
  }

  /** Everything before the `h` is the hours field in decimal, signed when negative, with no leading zero. */
  lemma FormatDurationHours(micros: int)
    ensures var s := FormatDuration(micros);
      var h := SplitDuration(micros).0;
      if h >= 0 then AllDigits(s[..|s| - 4]) && DigitsValue(s[..|s| - 4]) == h && (s[0] == '0' ==> h == 0 && |s| == 5)
      else s[0] == '-' && |s| >= 6 && AllDigits(s[1..|s| - 4]) && DigitsValue(s[1..|s| - 4]) == -h && s[1] != '0'
  {
    var (h, m) := SplitDuration(micros);
    var head := IntToDecimal(h);
    var s := FormatDuration(micros);
    assert s == head + "h" + Padded(m, 2) + "m";
    assert s[..|head|] == head;
    if h < 0 {
      assert s[1..|head|] == head[1..];
    }
  }
}
