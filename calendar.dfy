/**
 * The diary calendar's day cell: XCalendar.formatday renders one table
 * cell from the calendar entries of the signed-in user on that day.
 */
module Calendar {

  import opened Wrappers
  import opened Seqs
  import opened Digits
  import opened Dates
  import opened Models

  /** A diary entry as the calendar reads it: id, owner, event date, mood and title. */
  datatype CalendarEntry = CalendarEntry(id: nat, owner: UserId, eventDate: Timestamp, mood: string, title: string)

  /** `owner=user, event_date__year=year, event_date__month=month, event_date__day=day`. */
  function EntryOn(user: UserId, year: int, month: int, day: int): CalendarEntry -> bool
  {
    (e: CalendarEntry) =>
      e.owner == user && e.eventDate.date.year == year && e.eventDate.date.month == month && e.eventDate.date.day == day
  }

  function DayEntries(table: seq<CalendarEntry>, user: UserId, year: int, month: int, day: int): seq<CalendarEntry>
  {
    Filter(table, EntryOn(user, year, month, day))
  }

  const EmptyCell: string := "<td class=\"calendar__day calendar__day--empty\">&nbsp;</td>"
  const DayClass: string := "calendar__day"
  const ActiveClass: string := " calendar__day--active"
  const EventsOpen: string := "<div class=\"calendar__events\">"
  const EventsClose: string := "</div>"
  const MoodPrefix: string := "event--"
  const DefaultMood: string := "event--default"
  const PillOpen: string := "<div class=\"event-pill "
  const TitleAttr: string := "\" title=\""
  const IdAttr: string := "\" draggable=\"true\" data-entry-id=\""
  const TagEnd: string := "\">"
  const CellOpen: string := "<td class=\""
  const DateAttrOpen: string := "\" data-date=\""
  const DayOpen: string := "\"><div class=\"day-wrapper\"><span class=\"calendar__date\">"
  const DayClose: string := "</span>"
  const CellClose: string := "</div></td>"

  predicate IsUpper(c: char) { 'A' <= c <= 'Z' }

  function LowerChar(c: char): char
  {
    if IsUpper(c) then (c as int + 32) as char else c
  }

  /** `str.lower()` on the ASCII letters. */
  function Lower(s: string): string
  {
    seq(|s|, i requires 0 <= i < |s| => LowerChar(s[i]))
  }

  /** The pill's colour class: `event--` and the lower-cased mood, or `event--default` without a mood. */
  function MoodClass(mood: string): string
  {
    if mood != "" then MoodPrefix + Lower(mood) else DefaultMood
  }

  /** One draggable event pill carrying the entry's id and title. */
  function Pill(e: CalendarEntry): string
  {
    PillOpen + MoodClass(e.mood) + TitleAttr + e.title + IdAttr + NatToString(e.id) + TagEnd + e.title + EventsClose
  }

  /** The pills of es, one after another in the order of es. */
  function Pills(es: seq<CalendarEntry>): string
  {
    FlatMap(es, Pill)
  }

  function EventsBlock(es: seq<CalendarEntry>): string
  {
    if es == [] then "" else EventsOpen + Pills(es) + EventsClose
  }

  function CellClass(es: seq<CalendarEntry>): string
  {
    if es == [] then DayClass else DayClass + ActiveClass
  }

  /** `f"{year}-{month:02d}-{day:02d}"`. */
  function DateAttr(year: int, month: int, day: int): string
  {
    IntToString(year) + "-" + Pad2(month) + "-" + Pad2(day)
  }

  /** The cell formatday returns for `day` of the calendar's month (0 is a padding cell). */
  function DayCell(year: int, month: int, user: UserId, day: int, table: seq<CalendarEntry>): string
  {
    if day == 0 then EmptyCell
    else
      var es := DayEntries(table, user, year, month, day);
      CellOpen + CellClass(es) + DateAttrOpen + DateAttr(year, month, day)
      + DayOpen + IntToString(day) + DayClose + EventsBlock(es) + CellClose
  }

  /** The month calendar of one user. */
  class XCalendar {
    var year: int
    var month: int
    var user: UserId

    constructor (year: int, month: int, user: UserId)
      ensures this.year == year && this.month == month && this.user == user
    {
      this.year, this.month, this.user := year, month, user;
    }

    /** `formatday`: the class and the pills are accumulated entry by entry. */
    method FormatDay(day: int, table: seq<CalendarEntry>) returns (cell: string)
      ensures cell == DayCell(year, month, user, day, table)
      ensures day == 0 ==> cell == EmptyCell
    {
      if day == 0 {
        return EmptyCell;
      }
      var entries := DayEntries(table, user, year, month, day);
      var cssClass := DayClass;
      var eventsHtml := "";
      var dateStr := IntToString(year) + "-" + Pad2(month) + "-" + Pad2(day);
      if entries != [] {
        cssClass := cssClass + ActiveClass;
        eventsHtml := EventsOpen;
        for i := 0 to |entries|
          invariant eventsHtml == EventsOpen + Pills(entries[..i])
        {
          var entry := entries[i];
          var moodClass := if entry.mood != "" then MoodPrefix + Lower(entry.mood) else DefaultMood;
          var pill := PillOpen + moodClass + TitleAttr + entry.title
            + IdAttr + NatToString(entry.id) + TagEnd + entry.title + EventsClose;
          assert pill == Pill(entry);
          FlatMapSnoc(entries, Pill, i);
          ConcatAssoc(EventsOpen, Pills(entries[..i]), pill);
          eventsHtml := eventsHtml + pill;
        }
        assert entries[..|entries|] == entries;
        eventsHtml := eventsHtml + EventsClose;
      }
      assert cssClass == CellClass(entries) && eventsHtml == EventsBlock(entries);
      cell := CellOpen + cssClass + DateAttrOpen + dateStr + DayOpen + IntToString(day) + DayClose
        + eventsHtml + CellClose;
    }
  }

  // ---- Properties of the cell ----

  lemma ConcatAssoc(x: string, y: string, z: string)
    ensures (x + y) + z == x + (y + z)
  {
  }

  /** The pills of two runs of entries are the two runs of pills. */
  lemma PillsAppend(a: seq<CalendarEntry>, b: seq<CalendarEntry>)
    ensures Pills(a + b) == Pills(a) + Pills(b)
  {
    FlatMapAppend(a, b, Pill);
  }

  /** Where the i-th entry's pill starts: after the pills of the entries before it. */
  function PillOffset(es: seq<CalendarEntry>, i: nat): nat
    requires i <= |es|
  {
    |Pills(es[..i])|
  }

  /** One pill per entry, in input order: the i-th pill sits right after the pills of the first i entries. */
  lemma PillAt(es: seq<CalendarEntry>, i: nat)
    requires i < |es|
    ensures PillOffset(es, i) + |Pill(es[i])| <= |Pills(es)|
    ensures Pills(es)[PillOffset(es, i)..PillOffset(es, i) + |Pill(es[i])|] == Pill(es[i])
  {
    assert es == es[..i] + [es[i]] + es[i + 1..];
    PillsAppend(es[..i] + [es[i]], es[i + 1..]);
    PillsAppend(es[..i], [es[i]]);
    assert [es[i]][..0] == [];
    assert Pills([es[i]]) == Pills([]) + Pill(es[i]);
  }

  /** The pill names its entry: its id and title follow fixed text at fixed places. */
  lemma PillCarriesEntry(e: CalendarEntry)
    ensures var p := Pill(e); var t := PillOpen + MoodClass(e.mood) + TitleAttr; var id := NatToString(e.id);
      && p[..|t|] == t
      && p[|t|..|t| + |e.title|] == e.title
      && p[|p| - 6 - |e.title|..|p| - 6] == e.title
      && p[|p| - 6..] == EventsClose
      && var k := |p| - 8 - |e.title| - |id|;
         0 <= k && p[k..k + |id|] == id && ParseNat(p[k..k + |id|]) == e.id
  {
    ParseNatToString(e.id);
    assert |EventsClose| == 6 && |TagEnd| == 2;
    PillLayout(PillOpen + MoodClass(e.mood) + TitleAttr, e.title, IdAttr, NatToString(e.id), TagEnd, EventsClose);
  }

  /** In `a + title + b + id + c + title + d`, where each part sits counted from either end. */
  lemma PillLayout(a: string, title: string, b: string, id: string, c: string, d: string)
    ensures var p := a + title + b + id + c + title + d;
      && p[..|a|] == a
      && p[|a|..|a| + |title|] == title
      && p[|p| - |d| - |title|..|p| - |d|] == title
      && p[|p| - |d|..] == d
      && p[|p| - |d| - |title| - |c| - |id|..|p| - |d| - |title| - |c|] == id
  {
    var p := a + title + b + id + c + title + d;
    var front := a + title + b;
    var back := id + c + title + d;
    assert p == front + back;
    assert back[..|id|] == id;
  }

  /**
   * `lower()` on ASCII: same length, each upper-case letter replaced by its
   * lower-case letter (32 code points on), every other character kept, no
   * upper-case letter left, and a second pass changes nothing.
   */
  lemma LowerShape(s: string)
    ensures |Lower(s)| == |s|
    ensures forall i :: 0 <= i < |s| ==> Lower(s)[i] == if IsUpper(s[i]) then (s[i] as int + 32) as char else s[i]
    ensures forall i :: 0 <= i < |s| ==> !IsUpper(Lower(s)[i])
    ensures Lower(Lower(s)) == Lower(s)
  {
  }

  /** The mood class: the default without a mood, otherwise the prefix and the mood in lower case. */
  lemma MoodClassShape(mood: string)
    ensures mood == "" ==> MoodClass(mood) == DefaultMood
    ensures mood != "" ==> |MoodClass(mood)| == |MoodPrefix| + |mood| && MoodClass(mood)[..|MoodPrefix|] == MoodPrefix
    ensures mood != "" ==> MoodClass(mood)[|MoodPrefix|..] == Lower(mood)
    ensures forall i :: 0 <= i < |MoodClass(mood)| ==> !IsUpper(MoodClass(mood)[i])
    ensures MoodClass(Lower(mood)) == MoodClass(mood)
  {
    LowerShape(mood);
    if mood != "" {
      assert Lower(mood) != [] by {
        assert |Lower(mood)| == |mood|;
      }
    }
  }

  /** Reads a `YYYY-MM-DD` data-date value back; None unless the layout matches. */
  function ParseDateAttr(s: string): Option<Date>
  {
    if |s| >= 7 && s[|s| - 6] == '-' && s[|s| - 3] == '-'
       && AllDigits(s[..|s| - 6]) && AllDigits(s[|s| - 5..|s| - 3]) && AllDigits(s[|s| - 2..])
    then Some(Date(ParseNat(s[..|s| - 6]), ParseNat(s[|s| - 5..|s| - 3]), ParseNat(s[|s| - 2..])))
    else None
  }

  /** The three fields of `y-pp-qq` sit at fixed distances from its end. */
  lemma DashedFields(y: string, p: string, q: string)
    requires |p| == 2 && |q| == 2
    ensures var s := y + "-" + p + "-" + q;
      && |s| == |y| + 6 && s[|s| - 6] == '-' && s[|s| - 3] == '-'
      && s[..|s| - 6] == y && s[|s| - 5..|s| - 3] == p && s[|s| - 2..] == q
  {
  }

  /** Any `y-pp-qq` made of digit fields parses to those fields' values. */
  lemma ParseDashed(y: string, p: string, q: string)
    requires |y| >= 1 && |p| == 2 && |q| == 2 && AllDigits(y) && AllDigits(p) && AllDigits(q)
    ensures ParseDateAttr(y + "-" + p + "-" + q) == Some(Date(ParseNat(y), ParseNat(p), ParseNat(q)))
  {
    DashedFields(y, p, q);
  }

  /** The data-date attribute names the cell's day: parsing it gives back year, month and day. */
  lemma DateAttrRoundTrip(year: int, month: int, day: int)
    requires 0 <= year && 1 <= month <= 12 && 1 <= day <= 31
    ensures |DateAttr(year, month, day)| == |NatToString(year)| + 6
    ensures ParseDateAttr(DateAttr(year, month, day)) == Some(Date(year, month, day))
  {
    var y := NatToString(year);
    Pad2RoundTrip(month);
    Pad2RoundTrip(day);
    ParseNatToString(year);
    assert DateAttr(year, month, day) == y + "-" + Pad2(month) + "-" + Pad2(day);
    ParseDashed(y, Pad2(month), Pad2(day));
  }

  /** A day is marked active, and has an events block, exactly when the user has an entry on it. */
  lemma ActiveIffEntries(year: int, month: int, user: UserId, day: int, table: seq<CalendarEntry>)
    ensures var es := DayEntries(table, user, year, month, day);
      var has := exists e :: e in table && EntryOn(user, year, month, day)(e);
      && (CellClass(es) == DayClass + ActiveClass <==> has)
      && (EventsBlock(es) != "" <==> has)
      && (!has ==> CellClass(es) == DayClass && EventsBlock(es) == "")
  {
    var es := DayEntries(table, user, year, month, day);
    if es != [] {
      assert es[0] in es;
    }
  }

  /** Entries of other users or of other days, wherever they sit in the table, do not change the cell. */
  lemma OtherEntriesIgnored(year: int, month: int, user: UserId, day: int,
                            before: seq<CalendarEntry>, e: CalendarEntry, after: seq<CalendarEntry>)
    requires !EntryOn(user, year, month, day)(e)
    ensures DayCell(year, month, user, day, before + [e] + after) == DayCell(year, month, user, day, before + after)
  {
    var p := EntryOn(user, year, month, day);
    FilterAppend(before + [e], after, p);
    FilterAppend(before, [e], p);
    FilterAppend(before, after, p);
    assert Filter([e], p) == [];
    assert Filter(before, p) + [] == Filter(before, p);
    assert DayEntries(before + [e] + after, user, year, month, day) == DayEntries(before + after, user, year, month, day);
  }

  /** The padding cell does not depend on the calendar's month, user or entries. */
  lemma EmptyCellFixed(year: int, month: int, user: UserId, table: seq<CalendarEntry>,
                       year': int, month': int, user': UserId, table': seq<CalendarEntry>)
    ensures DayCell(year, month, user, 0, table) == DayCell(year', month', user', 0, table') == EmptyCell
  {
  }
}
