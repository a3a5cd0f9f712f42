/**
 * The diary page's month navigation and the new-entry modal's date value:
 * updateNavButtons writes the previous and next months to the buttons'
 * data attributes, the drop handler recovers the shown month from the
 * previous button, and a click on a day fills the date-time input.
 */
module Diary {

  import opened Wrappers
  import opened Digits
  import opened Dates
  import Calendar

  /** The fields of a JS Date that the page reads: getFullYear() and getMonth(). */
  datatype JsDate = JsDate(fullYear: int, monthIndex: int)

  datatype YearMonth = YearMonth(year: int, month: int)

  /** A JS Date's year argument: 0 to 99 stand for 1900 to 1999. */
  function JsYear(year: int): int
  {
    if 0 <= year <= 99 then 1900 + year else year
  }

  /**
   * `new Date(year, monthIndex, 1)`: a month index outside 0..11 rolls
   * into neighbouring years (floor division by 12).
   */
  function NewDate(year: int, monthIndex: int): (d: JsDate)
    ensures 0 <= d.monthIndex < 12
    ensures 12 * d.fullYear + d.monthIndex == 12 * JsYear(year) + monthIndex
  {
    JsDate(JsYear(year) + monthIndex / 12, monthIndex % 12)
  }

  /** The month the "previous" button is set to while (year, month) is shown. */
  function PrevMonth(year: int, month: int): YearMonth
  {
    var d := NewDate(year, month - 2);
    YearMonth(d.fullYear, d.monthIndex + 1)
  }

  /** The month the "next" button is set to while (year, month) is shown. */
  function NextMonth(year: int, month: int): YearMonth
  {
    var d := NewDate(year, month);
    YearMonth(d.fullYear, d.monthIndex + 1)
  }

  /** Outside the two-digit years, "previous" of month m is m-1, or December of the year before. */
  lemma PrevMonthStep(year: int, month: int)
    requires 1 <= month <= 12 && !(0 <= year <= 99)
    ensures PrevMonth(year, month) == if month == 1 then YearMonth(year - 1, 12) else YearMonth(year, month - 1)
  {
  }

  /** Outside the two-digit years, "next" of month m is m+1, or January of the year after. */
  lemma NextMonthStep(year: int, month: int)
    requires 1 <= month <= 12 && !(0 <= year <= 99)
    ensures NextMonth(year, month) == if month == 12 then YearMonth(year + 1, 1) else YearMonth(year, month + 1)
  {
  }

  /** Whatever the arguments, the buttons always get a month in 1..12. */
  lemma NavMonthsInRange(year: int, month: int)
    ensures 1 <= PrevMonth(year, month).month <= 12
    ensures 1 <= NextMonth(year, month).month <= 12
    ensures 12 * NextMonth(year, month).year + NextMonth(year, month).month
         == 12 * PrevMonth(year, month).year + PrevMonth(year, month).month + 2
  {
  }

  /** `parseInt` on the integers the page writes: an optional minus sign and decimal digits. */
  function ParseInt(s: string): Option<int>
  {
    if |s| >= 1 && AllDigits(s) then Some(ParseNat(s) as int)
    else if |s| >= 2 && s[0] == '-' && AllDigits(s[1..]) then Some(-(ParseNat(s[1..]) as int))
    else None
  }

  /** parseInt on a minus sign and digits gives the negated value of the digits. */
  lemma ParseIntNegative(t: string)
    requires |t| >= 1 && AllDigits(t)
    ensures ParseInt("-" + t) == Some(-(ParseNat(t) as int))
  {
    var s := "-" + t;
    assert s[1..] == t;
    assert !IsDigit(s[0]);
  }

  /** A number written to a data attribute reads back as itself. */
  lemma ParseIntToString(i: int)
    ensures ParseInt(IntToString(i)) == Some(i)
  {
    if i < 0 {
      ParseIntNegative(NatToString(-i));
      ParseNatToString(-i);
    } else {
      ParseNatToString(i);
    }
  }

  /**
   * The drop handler's guess at the shown month: the previous button's
   * month plus one, with 13 wrapping to January of the next year; None
   * where parseInt would give NaN.
   */
  function CurrentFromPrev(prevYear: string, prevMonth: string): Option<YearMonth>
  {
    match (ParseInt(prevYear), ParseInt(prevMonth))
    case (Some(y), Some(m)) => if m + 1 > 12 then Some(YearMonth(y + 1, 1)) else Some(YearMonth(y, m + 1))
    case _ => None
  }

  /**
   * What the drop handler does after a successful move: it throws on a
   * page without the previous button, or it re-fetches the month it
   * recovered (None where `parseInt` gives NaN).
   */
  datatype DropRefresh = PrevButtonMissing | Refetch(view: Option<YearMonth>)

  /** The two navigation buttons and the data attributes the page writes on them. */
  class NavButtons {
    var hasPrev: bool
    var hasNext: bool
    var prevYear: string
    var prevMonth: string
    var nextYear: string
    var nextMonth: string

    constructor (hasPrev: bool, hasNext: bool)
      ensures this.hasPrev == hasPrev && this.hasNext == hasNext
      ensures prevYear == prevMonth == nextYear == nextMonth == ""
    {
      this.hasPrev, this.hasNext := hasPrev, hasNext;
      prevYear, prevMonth, nextYear, nextMonth := "", "", "", "";
    }

    /** `updateNavButtons`: a missing button is skipped. */
    method UpdateNavButtons(currentYear: int, currentMonth: int)
      modifies this
      ensures hasPrev == old(hasPrev) && hasNext == old(hasNext)
      ensures hasPrev ==> (prevYear == IntToString(PrevMonth(currentYear, currentMonth).year)
                          && prevMonth == IntToString(PrevMonth(currentYear, currentMonth).month))
      ensures !hasPrev ==> prevYear == old(prevYear) && prevMonth == old(prevMonth)
      ensures hasNext ==> (nextYear == IntToString(NextMonth(currentYear, currentMonth).year)
                          && nextMonth == IntToString(NextMonth(currentYear, currentMonth).month))
      ensures !hasNext ==> nextYear == old(nextYear) && nextMonth == old(nextMonth)
    {
      var year := currentYear;
      var month := currentMonth;
      var prevDate := NewDate(year, month - 2);
      var nextDate := NewDate(year, month);
      if hasPrev {
        prevYear := IntToString(prevDate.fullYear);
        prevMonth := IntToString(prevDate.monthIndex + 1);
      }
      if hasNext {
        nextYear := IntToString(nextDate.fullYear);
        nextMonth := IntToString(nextDate.monthIndex + 1);
      }
    }

    /**
     * The month recovery in the drop handler, reading the previous button.
     * Without that button the handler's property read throws, and nothing
     * is fetched.
     */
    method CurrentView() returns (outcome: DropRefresh)
      ensures !hasPrev ==> outcome == PrevButtonMissing
      ensures hasPrev ==> outcome == Refetch(CurrentFromPrev(prevYear, prevMonth))
    {
      if !hasPrev {
        return PrevButtonMissing;
      }
      var parsedYear := ParseInt(prevYear);
      var parsedMonth := ParseInt(prevMonth);
      if parsedYear.None? || parsedMonth.None? {
        return Refetch(None);
      }
      var year := parsedYear.value;
      var month := parsedMonth.value + 1;
      if month > 12 {
        month := 1;
        year := year + 1;
      }
      outcome := Refetch(Some(YearMonth(year, month)));
    }
  }

  /**
   * Outside the two-digit years, recovering the month from the previous
   * button gives back the month whose buttons were written.
   */
  lemma RecoverInvertsPrev(year: int, month: int)
    requires 1 <= month <= 12 && !(0 <= year <= 99)
    ensures var p := PrevMonth(year, month);
      CurrentFromPrev(IntToString(p.year), IntToString(p.month)) == Some(YearMonth(year, month))
  {
    var p := PrevMonth(year, month);
    PrevMonthStep(year, month);
    ParseIntToString(p.year);
    ParseIntToString(p.month);
  }

  /** The JS two-digit-year rule: while year 50 is shown, "previous" points to 1950, and recovery misses. */
  lemma TwoDigitYearShift()
    ensures PrevMonth(50, 6) == YearMonth(1950, 5)
    ensures CurrentFromPrev(IntToString(1950), IntToString(5)) == Some(YearMonth(1950, 6))
  {
    ParseIntToString(1950);
    ParseIntToString(5);
  }

  // ---- The modal's date-time value ----

  /** `Date.prototype.toTimeString()`: "HH:MM:SS" followed by the zone text. */
  function ToTimeString(hour: int, minute: int, second: int, zone: string): string
  {
    Pad2(hour) + ":" + Pad2(minute) + ":" + Pad2(second) + zone
  }

  /** `s.slice(0, 5)`. */
  function SliceFive(s: string): (r: string)
    ensures |r| == if |s| >= 5 then 5 else |s|
    ensures r == s[..|r|]
  {
    if |s| >= 5 then s[..5] else s
  }

  /**
   * The value a click on a day cell writes to the date-time input: the
   * cell's date, "T", and the time's first five characters; None when the
   * cell has no date or the page has no such input.
   */
  function DateInputValue(dateStr: string, hasInput: bool, timeString: string): Option<string>
  {
    if dateStr != "" && hasInput then Some(dateStr + "T" + SliceFive(timeString)) else None
  }

  /** The first position of c in s. */
  function IndexOf(s: string, c: char): (r: Option<nat>)
    ensures r.Some? ==> r.value < |s| && s[r.value] == c && forall k :: 0 <= k < r.value ==> s[k] != c
    ensures r.None? ==> forall k :: 0 <= k < |s| ==> s[k] != c
  {
    if s == [] then None
    else if s[0] == c then Some(0)
    else match IndexOf(s[1..], c)
      case None => None
      case Some(k) => Some(k + 1)
  }

  /** Splits an input value at its first "T" into the date part and the time part. */
  function SplitAtT(v: string): Option<(string, string)>
  {
    match IndexOf(v, 'T')
    case None => None
    case Some(k) => Some((v[..k], v[k + 1..]))
  }

  /** The slice of a time string is its hours and minutes, two digits each. */
  lemma TimeSliceIsHourMinute(hour: int, minute: int, second: int, zone: string)
    requires 0 <= hour < 24 && 0 <= minute < 60 && 0 <= second < 60
    ensures SliceFive(ToTimeString(hour, minute, second, zone)) == Pad2(hour) + ":" + Pad2(minute)
  {
    Pad2RoundTrip(hour);
    Pad2RoundTrip(minute);
    Pad2RoundTrip(second);
  }

  /** A data-date value has no "T": it is made of digits and dashes. */
  lemma DateAttrHasNoT(year: int, month: int, day: int)
    requires 0 <= year && 1 <= month <= 12 && 1 <= day <= 31
    ensures IndexOf(Calendar.DateAttr(year, month, day), 'T').None?
  {
    var y := NatToString(year);
    var dateStr := Calendar.DateAttr(year, month, day);
    Pad2RoundTrip(month);
    Pad2RoundTrip(day);
    assert dateStr == y + "-" + Pad2(month) + "-" + Pad2(day);
    forall k | 0 <= k < |dateStr| ensures dateStr[k] != 'T' {
      if k < |y| {
        assert IsDigit(y[k]);
      } else if k == |y| || k == |y| + 3 {
      } else if k < |y| + 3 {
        assert IsDigit(Pad2(month)[k - |y| - 1]);
      } else {
        assert IsDigit(Pad2(day)[k - |y| - 4]);
      }
    }
  }

  /** The first c of `prefix + [c] + rest` is right after a prefix without c. */
  lemma {:induction false} IndexOfAfter(prefix: string, c: char, rest: string)
    requires IndexOf(prefix, c).None?
    ensures IndexOf(prefix + [c] + rest, c) == Some(|prefix|)
  {
    var v := prefix + [c] + rest;
    if prefix != [] {
      assert v[0] == prefix[0] && v[1..] == prefix[1..] + [c] + rest;
      IndexOfAfter(prefix[1..], c, rest);
    }
  }

  /**
   * For a cell of a real day, the input value splits back into that cell's
   * data-date, which names the day, and the hours and minutes of the time.
   */
  lemma DateInputRoundTrip(year: int, month: int, day: int, hour: int, minute: int, second: int, zone: string)
    requires 0 <= year && 1 <= month <= 12 && 1 <= day <= 31
    requires 0 <= hour < 24 && 0 <= minute < 60 && 0 <= second < 60
    ensures var dateStr := Calendar.DateAttr(year, month, day);
      var v := DateInputValue(dateStr, true, ToTimeString(hour, minute, second, zone));
      && v.Some? && |v.value| == |dateStr| + 6
      && SplitAtT(v.value) == Some((dateStr, Pad2(hour) + ":" + Pad2(minute)))
      && Calendar.ParseDateAttr(dateStr) == Some(Date(year, month, day))
  {
    var dateStr := Calendar.DateAttr(year, month, day);
    Calendar.DateAttrRoundTrip(year, month, day);
    TimeSliceIsHourMinute(hour, minute, second, zone);
    Pad2RoundTrip(hour);
    Pad2RoundTrip(minute);
    var time := Pad2(hour) + ":" + Pad2(minute);
    DateAttrHasNoT(year, month, day);
    IndexOfAfter(dateStr, 'T', time);
    var v := dateStr + "T" + time;
    assert v == dateStr + ['T'] + time;
    assert v[..|dateStr|] == dateStr && v[|dateStr| + 1..] == time;
  }
}
