/**
 * The calendar screen of App.tsx: the details shown for one day, the 42-cell
 * month grid, the colour of a cell's date, and the add / toggle / delete
 * handlers of the memo panel.
 *
 * The holiday and solar-term maps the screen consults are those of the
 * visible year (`currentDate.getFullYear()`), built once per year; a cell of
 * the grid that belongs to the previous or the next year is looked up in the
 * visible year's maps all the same.
 */
module CalendarView {
  import opened Wrappers
  import opened Gregorian
  import opened Lunar
  import opened Holidays
  import opened SolarTerms
  import opened Memos

  // ---------------------------------------------------------------------------
  // One day

  /** What `getDayDetails(date)` returns. */
  datatype DayDetails = DayDetails(holiday: Option<string>, jieQi: Option<string>, lunar: LunarDate)

  /** `map[key] || null`: an absent key and an empty label both read as `null`. */
  function LookupLabel(m: map<Day, string>, d: Day): (r: Option<string>)
    ensures r.Some? <==> d in m && m[d] != ""
    ensures r.Some? ==> r.value == m[d]
  {
    if d in m && m[d] != "" then Some(m[d]) else None
  }

  /** `getDayDetails(date)` over the visible year's holiday and term maps. */
  function GetDayDetails(holidays: map<Day, string>, terms: map<Day, string>, cal: LunarCalendar, d: Day): DayDetails {
    DayDetails(LookupLabel(holidays, d), LookupLabel(terms, d), cal.toLunar(d))
  }

  /** A day shows a holiday exactly when the year's holiday map lists it, and then with that map's label. */
  lemma DayHolidayRule(year: int, cal: LunarCalendar, terms: map<Day, string>, d: Day)
    ensures var h, details := HolidaysOf(year, cal), GetDayDetails(HolidaysOf(year, cal), terms, cal, d);
      && (details.holiday.Some? <==> d in h)
      && (d in h ==> details.holiday == Some(h[d]))
  {
    if d in HolidaysOf(year, cal) {
      HolidayLabelsNonEmpty(year, cal, d);
    }
  }

  /**
   * A day shows a solar term exactly when the year's term map lists it
   * (provided the library names no term with the empty string), and then
   * with that map's label.
   */
  lemma DayTermRule(holidays: map<Day, string>, cal: LunarCalendar, table: seq<JieQiEntry>, d: Day)
    requires forall i :: 0 <= i < |table| ==> table[i].name != ""
    ensures var t, details := TermMapOf(table), GetDayDetails(holidays, TermMapOf(table), cal, d);
      && (details.jieQi.Some? <==> d in t)
      && (d in t ==> details.jieQi == Some(t[d]))
  {
    if d in TermMapOf(table) {
      TermMapLabelsNonEmpty(table, d);
    }
  }

  // ---------------------------------------------------------------------------
  // The month grid

  /** `startOfWeek(date)` with date-fns' default week, which starts on Sunday. */
  function StartOfWeek(d: Day): (s: Day)
    ensures Weekday(s) == Sunday
    ensures s <= d < s + 7
  {
    d - Weekday(d)
  }

  /** The first cell of the grid of `year`-`month`: the Sunday on or before the 1st. */
  function GridStart(year: int, month: int): Day
    requires 1 <= month <= 12
  {
    StartOfWeek(DayOf(CivilDate(year, month, 1)))
  }

  /** `addDays(startOfWeek(startOfMonth(currentDate)), i)` for `i` in 0..41. */
  function MonthGrid(year: int, month: int): (cells: seq<Day>)
    requires 1 <= month <= 12
    ensures |cells| == 42
  {
    var start := GridStart(year, month);
    seq(42, i => start + i)
  }

  /**
   * The grid starts on the Sunday on or before the 1st, its cells run day by
   * day, and cell `i` falls on weekday `i % 7`, so column 0 is 일 (Sunday) and
   * column 6 is 토.
   */
  lemma GridWeekdays(year: int, month: int)
    requires 1 <= month <= 12
    ensures var cells, first := MonthGrid(year, month), DayOf(CivilDate(year, month, 1));
      && cells[0] <= first < cells[0] + 7 && Weekday(cells[0]) == Sunday
      && (forall i :: 0 < i < 42 ==> cells[i] == cells[i - 1] + 1)
      && (forall i :: 0 <= i < 42 ==> Weekday(cells[i]) == i % 7)
  {
    var cells := MonthGrid(year, month);
    forall i | 0 <= i < 42
      ensures Weekday(cells[i]) == i % 7
    {
      WeekdayShift(cells[0], i);
    }
  }

  /** Every day of the month has its cell, and the 1st is in the first row. */
  lemma GridCoversMonth(year: int, month: int, c: CivilDate)
    requires 1 <= month <= 12
    requires ValidDate(c) && c.year == year && c.month == month
    ensures var cells, k := MonthGrid(year, month), DayOf(c) - GridStart(year, month);
      && 0 <= k < 42 && cells[k] == DayOf(c)
      && (c.day == 1 ==> k < 7)
  {
  }

  // ---------------------------------------------------------------------------
  // The cell of the visible month

  /** The details of cell `i` of the grid of the visible `year`-`month`, with that year's maps. */
  function CellDetails(year: int, month: int, cal: LunarCalendar, i: nat): DayDetails
    requires 1 <= month <= 12 && i < 42
  {
    GetDayDetails(HolidaysOf(year, cal), TermMapOf(cal.jieQiTable(year)), cal, MonthGrid(year, month)[i])
  }

  /**
   * The holiday and term maps are those of the visible year alone, so a cell
   * of the grid in the next or the previous year shows no holiday, though that
   * year's own map may list its date (신정 in the cells after a December).
   */
  lemma AdjacentYearCellsShowNoHoliday(year: int, month: int, cal: LunarCalendar, i: nat)
    requires 1 <= month <= 12 && i < 42
    requires DayOf(CivilDate(year, 1, 1)) < cal.toSolar(year, 1, 1) && cal.toSolar(year, 1, 1) + 2 <= DayOf(CivilDate(year, 12, 31))
    requires DayOf(CivilDate(year, 1, 1)) < cal.toSolar(year, 8, 15) && cal.toSolar(year, 8, 15) + 2 <= DayOf(CivilDate(year, 12, 31))
    requires DayOf(CivilDate(year, 1, 1)) <= cal.toSolar(year, 4, 8) && cal.toSolar(year, 4, 8) + 2 <= DayOf(CivilDate(year, 12, 31))
    requires MonthGrid(year, month)[i] < DayOf(CivilDate(year, 1, 1)) || DayOf(CivilDate(year, 12, 31)) < MonthGrid(year, month)[i]
    ensures CellDetails(year, month, cal, i).holiday == None
  {
    var d := MonthGrid(year, month)[i];
    if d in HolidaysOf(year, cal) {
      HolidaysWithinYear(year, cal, d);
    }
  }

  /** In the grid of December 2025 the cell of 2026-01-01 is cell 32 and shows no holiday, while 2026's own map lists 신정 there. */
  lemma NewYearsDayAfterDecember2025(cal: LunarCalendar)
    requires cal.toSolar(2025, 1, 1) == DayOf(CivilDate(2025, 1, 29))
    requires cal.toSolar(2025, 8, 15) == DayOf(CivilDate(2025, 10, 6))
    requires cal.toSolar(2025, 4, 8) == DayOf(CivilDate(2025, 5, 5))
    requires cal.toSolar(2026, 1, 1) == DayOf(CivilDate(2026, 2, 17))
    requires cal.toSolar(2026, 8, 15) == DayOf(CivilDate(2026, 9, 25))
    requires cal.toSolar(2026, 4, 8) == DayOf(CivilDate(2026, 5, 24))
    ensures MonthGrid(2025, 12)[32] == DayOf(CivilDate(2026, 1, 1))
    ensures CellDetails(2025, 12, cal, 32).holiday == None
    ensures GetDayDetails(HolidaysOf(2026, cal), map[], cal, DayOf(CivilDate(2026, 1, 1))).holiday == Some(NEW_YEARS_DAY)
  {
    assert DayOf(CivilDate(2025, 12, 1)) == 739586 && DayOf(CivilDate(2026, 1, 1)) == 739617;
    AdjacentYearCellsShowNoHoliday(2025, 12, cal, 32);
    NewYearsDay2026(2026, cal);
    DayHolidayRule(2026, cal, map[], DayOf(CivilDate(2026, 1, 1)));
  }

  /** The colour class of a cell's date number: red on Sundays and holidays, else blue on Saturdays, else grey. */
  datatype DateColor = Red | Blue | Gray

  function DateColorOf(d: Day, details: DayDetails): DateColor {
    if Weekday(d) == Sunday || details.holiday.Some? then Red
    else if Weekday(d) == Saturday then Blue
    else Gray
  }

  /** A date is red exactly when it is a Sunday or a holiday of the year, and blue exactly when it is a Saturday that is no holiday. */
  lemma DateColorRule(year: int, cal: LunarCalendar, terms: map<Day, string>, d: Day)
    ensures var h, color := HolidaysOf(year, cal), DateColorOf(d, GetDayDetails(HolidaysOf(year, cal), terms, cal, d));
      && (color == Red <==> Weekday(d) == Sunday || d in h)
      && (color == Blue <==> Weekday(d) == Saturday && d !in h)
      && (color == Gray <==> Sunday < Weekday(d) < Saturday && d !in h)
  {
    DayHolidayRule(year, cal, terms, d);
  }

  // ---------------------------------------------------------------------------
  // The memo panel

  /** The characters `String.prototype.trim` removes: white space and line terminators. */
  predicate IsJsWhitespace(c: char) {
    var n := c as int;
    n == 0x09 || n == 0x0A || n == 0x0B || n == 0x0C || n == 0x0D || n == 0x20 || n == 0xA0
    || n == 0x1680 || (0x2000 <= n <= 0x200A) || n == 0x2028 || n == 0x2029 || n == 0x202F
    || n == 0x205F || n == 0x3000 || n == 0xFEFF
  }

  predicate IsBlank(s: string) {
    forall i :: 0 <= i < |s| ==> IsJsWhitespace(s[i])
  }

  /** `s` without its leading white space. */
  function TrimStart(s: string): (r: string)
    ensures |r| <= |s| && r == s[|s| - |r|..]
    ensures IsBlank(s[..|s| - |r|])
    ensures r == [] || !IsJsWhitespace(r[0])
  {
    if s != [] && IsJsWhitespace(s[0]) then
      var r := TrimStart(s[1..]);
      assert s[..|s| - |r|] == [s[0]] + s[1..][..|s[1..]| - |r|];
      r
    else s
  }

  /** `s` without its trailing white space. */
  function TrimEnd(s: string): (r: string)
    ensures |r| <= |s| && r == s[..|r|]
    ensures IsBlank(s[|r|..])
    ensures r == [] || !IsJsWhitespace(r[|r| - 1])
  {
    if s != [] && IsJsWhitespace(s[|s| - 1]) then
      var r := TrimEnd(s[..|s| - 1]);
      assert s[|r|..] == s[..|s| - 1][|r|..] + [s[|s| - 1]];
      r
    else s
  }

  /** `s.trim()`. */
  function Trim(s: string): string {
    TrimEnd(TrimStart(s))
  }

  /** `!s.trim()` holds exactly when every character of `s` is white space. */
  lemma TrimEmptyIffBlank(s: string)
    ensures Trim(s) == "" <==> IsBlank(s)
  {
    var t := TrimStart(s);
    if t != [] {
      assert !IsJsWhitespace(s[|s| - |t|]);
    }
  }

  /** The memo `handleAddMemo` creates: no repetition, no reminder, not completed, owned by `local_user`. */
  function NewMemo(content: string, date: CivilDate, memoType: MemoType, id: string, createdAt: string): (m: Memo)
    ensures m.id == id && m.createdAt == createdAt && m.userId == LOCAL_USER && !m.completed
    ensures m.date == date && m.memoType == memoType && m.content == content
    ensures m.repeatType == Some(NoRepeat) && m.reminderTime == None && m.reminderOffset == None
  {
    SavedMemo(MemoDraft(date, memoType, content, Some(NoRepeat), None, None), id, createdAt)
  }

  /** A newly added memo lists first on its own date and on no other date. */
  lemma NewMemoShowsOnItsDateOnly(content: string, date: CivilDate, memoType: MemoType, id: string, createdAt: string,
                                  others: seq<Memo>, target: CivilDate, cal: LunarCalendar)
    requires ValidDate(date) && ValidDate(target)
    ensures var m := NewMemo(content, date, memoType, id, createdAt);
      && (IsActive(m, target, cal) <==> target == date)
      && MemosForDate([m] + others, date, cal) == [m] + MemosForDate(others, date, cal)
      && (target != date ==> MemosForDate([m] + others, target, cal) == MemosForDate(others, target, cal))
  {
    var m := NewMemo(content, date, memoType, id, createdAt);
    NoRepetitionOnAnchorOnly(m, target, cal);
    NoRepetitionOnAnchorOnly(m, date, cal);
    assert ([m] + others)[1..] == others;
  }

  /** A memo added after clicking a grid cell shows exactly on that cell's date. */
  lemma NewMemoShowsOnClickedCell(content: string, cell: Day, memoType: MemoType, id: string, createdAt: string,
                                  target: CivilDate, cal: LunarCalendar)
    requires ValidDate(target)
    ensures IsActive(NewMemo(content, CivilOf(cell), memoType, id, createdAt), target, cal) <==> DayOf(target) == cell
  {
    NewMemoShowsOnItsDateOnly(content, CivilOf(cell), memoType, id, createdAt, [], target, cal);
    if DayOf(target) == cell {
      CivilOfDayOf(target);
    }
  }

  /** Deleting a new memo by its fresh id gives back the list it was added to. */
  lemma DeleteUndoesAdd(m: Memo, others: seq<Memo>)
    requires !HasId(others, m.id)
    ensures RemoveId([m] + others, m.id) == others
  {
    assert ([m] + others)[1..] == others;
    RemoveAbsentId(others, m.id);
  }

  /** Toggling a new memo by its fresh id flips it alone. */
  lemma ToggleNewMemo(m: Memo, others: seq<Memo>)
    requires !HasId(others, m.id)
    ensures ToggleId([m] + others, m.id) == [Flipped(m)] + others
  {
    assert ([m] + others)[1..] == others;
    ToggleAbsentId(others, m.id);
  }

  /** The screen state the memo handlers read and write. */
  class CalendarApp {
    var allMemos: seq<Memo>
    var newMemo: string
    var selectedDate: CivilDate
    var selectedType: MemoType

    /** The initial state: no memos, an empty input, today selected, the `TODO` type. */
    constructor(today: CivilDate)
      requires ValidDate(today)
      ensures allMemos == [] && newMemo == "" && selectedDate == today && selectedType == Todo
    {
      allMemos := [];
      newMemo := "";
      selectedDate := today;
      selectedType := Todo;
    }

    /** Clicking the grid cell of day `cell` selects that day's date. */
    method SelectDate(cell: Day)
      modifies this
      ensures selectedDate == CivilOf(cell)
      ensures ValidDate(selectedDate) && DayOf(selectedDate) == cell
      ensures allMemos == old(allMemos) && newMemo == old(newMemo) && selectedType == old(selectedType)
    {
      selectedDate := CivilOf(cell);
    }

    /** Choosing a memo type. */
    method SelectType(t: MemoType)
      modifies this
      ensures selectedType == t
      ensures allMemos == old(allMemos) && newMemo == old(newMemo) && selectedDate == old(selectedDate)
    {
      selectedType := t;
    }

    /** Typing in the memo input. */
    method SetInput(s: string)
      modifies this
      ensures newMemo == s
      ensures allMemos == old(allMemos) && selectedDate == old(selectedDate) && selectedType == old(selectedType)
    {
      newMemo := s;
    }

    /**
     * `handleAddMemo`, with the random id and the clock reading as parameters:
     * a blank input changes nothing; otherwise the untrimmed input becomes a
     * memo on the selected date, put first in the list, and the input is cleared.
     */
    method AddMemo(id: string, createdAt: string)
      modifies this
      ensures IsBlank(old(newMemo)) ==> allMemos == old(allMemos) && newMemo == old(newMemo)
      ensures !IsBlank(old(newMemo)) ==>
        allMemos == [NewMemo(old(newMemo), old(selectedDate), old(selectedType), id, createdAt)] + old(allMemos)
        && newMemo == ""
      ensures selectedDate == old(selectedDate) && selectedType == old(selectedType)
    {
      TrimEmptyIffBlank(newMemo);
      if Trim(newMemo) == "" {
        return;
      }
      var memo := NewMemo(newMemo, selectedDate, selectedType, id, createdAt);
      allMemos := [memo] + allMemos;
      newMemo := "";
    }

    /** `handleToggleMemo(id)`. */
    method ToggleMemo(id: string)
      modifies this
      ensures allMemos == ToggleId(old(allMemos), id)
      ensures newMemo == old(newMemo) && selectedDate == old(selectedDate) && selectedType == old(selectedType)
    {
      allMemos := ToggleId(allMemos, id);
    }

    /** `handleDeleteMemo(id)`, with the user's answer to the confirmation dialog as a parameter. */
    method DeleteMemo(id: string, confirmed: bool)
      modifies this
      ensures !confirmed ==> allMemos == old(allMemos)
      ensures confirmed ==> allMemos == RemoveId(old(allMemos), id)
      ensures newMemo == old(newMemo) && selectedDate == old(selectedDate) && selectedType == old(selectedType)
    {
      if !confirmed {
        return;
      }
      allMemos := RemoveId(allMemos, id);
    }
  }
}
