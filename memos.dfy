/**
 * The memo store and recurrence matcher of services/supabaseClient.ts.
 *
 * A memo is anchored on a civil date and carries a repetition tag; the matcher
 * decides whether it applies on a target date, and `MemosForDate` keeps the
 * matching memos of the stored list in their stored order. The store itself
 * (`localStorage` under one key, read and rewritten whole by every operation)
 * is a `MemoStore` object holding the list; saving appends, deleting filters
 * by id and toggling flips the completion flag of the memos with that id.
 */
module Memos {
  import opened Gregorian
  import opened Lunar
  import opened Wrappers

  datatype MemoType = Todo | Idea | Appointment

  /**
   * The values a stored `repeat_type` can hold that the matcher tells apart.
   * `Unrecognized` is any other string; an absent or `null` field is `None` of
   * the `Option` around it.
   */
  datatype RepeatType = NoRepeat | Weekly | Monthly | YearlySolar | YearlyLunar | Unrecognized(raw: string)

  datatype Memo = Memo(
    id: string,
    userId: string,
    /** The `YYYY-MM-DD` anchor date, as the (year, month, day) it spells out. */
    date: CivilDate,
    memoType: MemoType,
    content: string,
    completed: bool,
    createdAt: string,
    repeatType: Option<RepeatType>,
    reminderTime: Option<string>,
    reminderOffset: Option<seq<int>>)

  /** The fields a caller supplies to `saveMemoLocal`. */
  datatype MemoDraft = MemoDraft(
    date: CivilDate,
    memoType: MemoType,
    content: string,
    repeatType: Option<RepeatType>,
    reminderTime: Option<string>,
    reminderOffset: Option<seq<int>>)

  const LOCAL_USER := "local_user"

  /**
   * A tag JavaScript treats like `RepeatType.NONE` in `repeat_type === NONE ||
   * !repeat_type`: the NONE tag itself, or a falsy value (absent, `null`, `""`).
   */
  predicate NoRepetition(t: Option<RepeatType>) {
    t == None || t == Some(NoRepeat) || t == Some(Unrecognized(""))
  }

  // ---------------------------------------------------------------------------
  // The recurrence matcher

  /**
   * Whether `memo` shows on `target` (the predicate of `getMemosForDate`).
   * An anchor that is not a real date parses to an invalid `Date`, against
   * which every comparison of the matcher is false.
   */
  predicate IsActive(memo: Memo, target: CivilDate, cal: LunarCalendar)
    requires ValidDate(target)
  {
    if !ValidDate(memo.date) then false
    else if NoRepetition(memo.repeatType) then DayOf(memo.date) == DayOf(target)
    else if DayOf(target) < DayOf(memo.date) then false
    else match memo.repeatType.value
      case Weekly => Weekday(DayOf(memo.date)) == Weekday(DayOf(target))
      case Monthly => memo.date.day == target.day
      case YearlySolar => memo.date.month == target.month && memo.date.day == target.day
      case YearlyLunar =>
        var anchor, day := cal.toLunar(DayOf(memo.date)), cal.toLunar(DayOf(target));
        anchor.month == day.month && anchor.day == day.day
      case _ => false
  }

  /** `a` is `b` with some elements left out and the rest in their order. */
  predicate IsSubsequence<T(==)>(a: seq<T>, b: seq<T>)
    decreases |b|
  {
    if a == [] then true
    else if b == [] then false
    else if a[0] == b[0] then IsSubsequence(a[1..], b[1..])
    else IsSubsequence(a, b[1..])
  }

  /** `getMemosForDate(target)` over the stored list `memos`. */
  function MemosForDate(memos: seq<Memo>, target: CivilDate, cal: LunarCalendar): seq<Memo>
    requires ValidDate(target)
  {
    if memos == [] then []
    else
      var rest := MemosForDate(memos[1..], target, cal);
      if IsActive(memos[0], target, cal) then [memos[0]] + rest else rest
  }

  /**
   * The memos of a date are the stored memos active on it, in their stored
   * order, each kept as often as it is stored.
   */
  lemma {:induction false} MemosForDateSpec(memos: seq<Memo>, target: CivilDate, cal: LunarCalendar)
    requires ValidDate(target)
    ensures var r := MemosForDate(memos, target, cal);
      && IsSubsequence(r, memos)
      && (forall m :: m in r <==> m in memos && IsActive(m, target, cal))
      && (forall m :: IsActive(m, target, cal) ==> multiset(r)[m] == multiset(memos)[m])
  {
    if memos != [] {
      MemosForDateSpec(memos[1..], target, cal);
      assert memos == [memos[0]] + memos[1..];
    }
  }

  /** A memo without repetition shows exactly on its own anchor date. */
  lemma NoRepetitionOnAnchorOnly(memo: Memo, target: CivilDate, cal: LunarCalendar)
    requires ValidDate(target) && ValidDate(memo.date)
    requires NoRepetition(memo.repeatType)
    ensures IsActive(memo, target, cal) <==> memo.date == target
  {
    if DayOf(memo.date) == DayOf(target) {
      DayOfInjective(memo.date, target);
    }
  }

  /** A repeating memo never shows before its anchor, and each known rule shows it on the anchor itself. */
  lemma RepeatingStartsAtAnchor(memo: Memo, target: CivilDate, cal: LunarCalendar)
    requires ValidDate(target) && ValidDate(memo.date)
    requires !NoRepetition(memo.repeatType)
    ensures Before(target, memo.date) ==> !IsActive(memo, target, cal)
    ensures target == memo.date && !memo.repeatType.value.Unrecognized? ==> IsActive(memo, target, cal)
  {
    if Before(target, memo.date) {
      DayOfStrictlyMonotone(target, memo.date);
    }
  }

  /** Weekly repetition is every seventh day from the anchor on. */
  lemma WeeklyRule(memo: Memo, target: CivilDate, cal: LunarCalendar)
    requires ValidDate(target) && ValidDate(memo.date)
    requires memo.repeatType == Some(Weekly)
    ensures IsActive(memo, target, cal) <==>
      DayOf(memo.date) <= DayOf(target) && (DayOf(target) - DayOf(memo.date)) % 7 == 0
  {
    var a, t := DayOf(memo.date), DayOf(target);
    if a <= t {
      SameWeekday(a, t);
    }
  }

  /** Monthly repetition matches the day of the month, from the anchor on. */
  lemma MonthlyRule(memo: Memo, target: CivilDate, cal: LunarCalendar)
    requires ValidDate(target) && ValidDate(memo.date)
    requires memo.repeatType == Some(Monthly)
    ensures IsActive(memo, target, cal) <==> !Before(target, memo.date) && target.day == memo.date.day
  {
    if Before(target, memo.date) {
      DayOfStrictlyMonotone(target, memo.date);
    } else if target != memo.date {
      DayOfStrictlyMonotone(memo.date, target);
    }
  }

  /** A monthly memo anchored on the 31st never shows in a month that has no 31st day. */
  lemma MonthlyOn31stSkipsShortMonths(memo: Memo, target: CivilDate, cal: LunarCalendar)
    requires ValidDate(target) && ValidDate(memo.date)
    requires memo.repeatType == Some(Monthly) && memo.date.day == 31
    requires DaysInMonth(target.year, target.month) < 31
    ensures !IsActive(memo, target, cal)
  {
  }

  /** Yearly-by-solar-date repetition matches month and day, from the anchor on. */
  lemma YearlySolarRule(memo: Memo, target: CivilDate, cal: LunarCalendar)
    requires ValidDate(target) && ValidDate(memo.date)
    requires memo.repeatType == Some(YearlySolar)
    ensures IsActive(memo, target, cal) <==>
      !Before(target, memo.date) && target.month == memo.date.month && target.day == memo.date.day
  {
    if Before(target, memo.date) {
      DayOfStrictlyMonotone(target, memo.date);
    } else if target != memo.date {
      DayOfStrictlyMonotone(memo.date, target);
    }
  }

  /** A yearly memo anchored on 29 February shows only in leap years. */
  lemma YearlySolarLeapDay(memo: Memo, target: CivilDate, cal: LunarCalendar)
    requires ValidDate(target) && ValidDate(memo.date)
    requires memo.repeatType == Some(YearlySolar) && memo.date.month == 2 && memo.date.day == 29
    ensures IsActive(memo, target, cal) ==> IsLeapYear(target.year)
  {
  }

  /** Yearly-by-lunar-date repetition compares the library's lunar month and day, from the anchor on. */
  lemma YearlyLunarRule(memo: Memo, target: CivilDate, cal: LunarCalendar)
    requires ValidDate(target) && ValidDate(memo.date)
    requires memo.repeatType == Some(YearlyLunar)
    ensures IsActive(memo, target, cal) <==>
      DayOf(memo.date) <= DayOf(target)
      && cal.toLunar(DayOf(target)).month == cal.toLunar(DayOf(memo.date)).month
      && cal.toLunar(DayOf(target)).day == cal.toLunar(DayOf(memo.date)).day
  {
  }

  /**
   * Only the library's `getMonth()` and `getDay()` are compared: two libraries
   * that agree on those two values give the same answer.
   */
  lemma YearlyLunarComparesMonthAndDayOnly(memo: Memo, target: CivilDate, cal: LunarCalendar, other: LunarCalendar)
    requires ValidDate(target)
    requires forall d :: other.toLunar(d).month == cal.toLunar(d).month && other.toLunar(d).day == cal.toLunar(d).day
    ensures IsActive(memo, target, cal) == IsActive(memo, target, other)
  {
    if ValidDate(memo.date) {
      var a, t := DayOf(memo.date), DayOf(target);
      assert other.toLunar(a).month == cal.toLunar(a).month && other.toLunar(a).day == cal.toLunar(a).day;
      assert other.toLunar(t).month == cal.toLunar(t).month && other.toLunar(t).day == cal.toLunar(t).day;
    }
  }

  /** An unrecognised, non-empty tag never shows, on any date. */
  lemma UnrecognizedNeverActive(memo: Memo, target: CivilDate, cal: LunarCalendar, raw: string)
    requires ValidDate(target)
    requires raw != "" && memo.repeatType == Some(Unrecognized(raw))
    ensures !IsActive(memo, target, cal)
  {
  }

  /** Filtering a list with one more memo at the end gives the old result, followed by that memo when it matches. */
  lemma {:induction false} MemosForDateAppend(memos: seq<Memo>, m: Memo, target: CivilDate, cal: LunarCalendar)
    requires ValidDate(target)
    ensures MemosForDate(memos + [m], target, cal)
      == MemosForDate(memos, target, cal) + (if IsActive(m, target, cal) then [m] else [])
  {
    if memos == [] {
      assert memos + [m] == [m];
      assert MemosForDate([m][1..], target, cal) == [];
    } else {
      assert (memos + [m])[1..] == memos[1..] + [m];
      MemosForDateAppend(memos[1..], m, target, cal);
    }
  }

  // ---------------------------------------------------------------------------
  // List operations of the store

  /** `memos.filter(m => m.id !== id)`. */
  function RemoveId(memos: seq<Memo>, id: string): (r: seq<Memo>)
    ensures IsSubsequence(r, memos)
    ensures forall m :: m in r ==> m.id != id
    ensures forall m: Memo :: m.id != id ==> multiset(r)[m] == multiset(memos)[m]
  {
    if memos == [] then []
    else
      var rest := RemoveId(memos[1..], id);
      assert memos == [memos[0]] + memos[1..];
      if memos[0].id != id then [memos[0]] + rest else rest
  }

  function Flipped(m: Memo): Memo {
    m.(completed := !m.completed)
  }

  /** `memos.map(m => m.id === id ? { ...m, completed: !m.completed } : m)`. */
  function ToggleId(memos: seq<Memo>, id: string): (r: seq<Memo>)
    ensures |r| == |memos|
    ensures forall i :: 0 <= i < |memos| ==> r[i] == if memos[i].id == id then Flipped(memos[i]) else memos[i]
  {
    if memos == [] then []
    else [if memos[0].id == id then Flipped(memos[0]) else memos[0]] + ToggleId(memos[1..], id)
  }

  /** The memo `saveMemoLocal(draft)` stores, given the id and creation time it draws. */
  function SavedMemo(draft: MemoDraft, id: string, createdAt: string): (m: Memo)
    ensures m.id == id && m.createdAt == createdAt && m.userId == LOCAL_USER && !m.completed
    ensures m.date == draft.date && m.memoType == draft.memoType && m.content == draft.content
    ensures m.reminderTime == draft.reminderTime && m.reminderOffset == draft.reminderOffset
    ensures !NoRepetition(draft.repeatType) ==> m.repeatType == draft.repeatType
    ensures NoRepetition(draft.repeatType) ==> m.repeatType == Some(NoRepeat)
  {
    Memo(id, LOCAL_USER, draft.date, draft.memoType, draft.content, false, createdAt,
      if NoRepetition(draft.repeatType) then Some(NoRepeat) else draft.repeatType,
      draft.reminderTime, draft.reminderOffset)
  }

  /** Whether any memo of the list has this id. */
  predicate HasId(memos: seq<Memo>, id: string) {
    exists m :: m in memos && m.id == id
  }

  /** Toggling twice restores the list. */
  lemma {:induction false} ToggleTwice(memos: seq<Memo>, id: string)
    ensures ToggleId(ToggleId(memos, id), id) == memos
  {
    var once := ToggleId(memos, id);
    var twice := ToggleId(once, id);
    assert |twice| == |memos|;
    forall i | 0 <= i < |memos|
      ensures twice[i] == memos[i]
    {
      assert once[i].id == memos[i].id;
    }
  }

  /** Toggling keeps every memo's id, so toggling never adds or removes an id. */
  lemma ToggleKeepsIds(memos: seq<Memo>, id: string)
    ensures forall i :: 0 <= i < |memos| ==> ToggleId(memos, id)[i].id == memos[i].id
    ensures forall other :: HasId(ToggleId(memos, id), other) <==> HasId(memos, other)
  {
    var r := ToggleId(memos, id);
    forall other | HasId(memos, other)
      ensures HasId(r, other)
    {
      var m :| m in memos && m.id == other;
      var i :| 0 <= i < |memos| && memos[i] == m;
      assert r[i] in r;
    }
    forall other | HasId(r, other)
      ensures HasId(memos, other)
    {
      var m :| m in r && m.id == other;
      var i :| 0 <= i < |r| && r[i] == m;
      assert memos[i] in memos;
    }
  }

  /** Toggling an id nobody has changes nothing. */
  lemma ToggleAbsentId(memos: seq<Memo>, id: string)
    requires !HasId(memos, id)
    ensures ToggleId(memos, id) == memos
  {
    var r := ToggleId(memos, id);
    forall i | 0 <= i < |memos|
      ensures r[i] == memos[i]
    {
      assert memos[i] in memos;
    }
  }

  /** Deleting an id nobody has changes nothing. */
  lemma {:induction false} RemoveAbsentId(memos: seq<Memo>, id: string)
    requires !HasId(memos, id)
    ensures RemoveId(memos, id) == memos
  {
    if memos != [] {
      assert memos[0] in memos;
      assert !HasId(memos[1..], id) by {
        forall m | m in memos[1..] ensures m.id != id { assert m in memos; }
      }
      RemoveAbsentId(memos[1..], id);
      assert memos == [memos[0]] + memos[1..];
    }
  }

  /** Deleting twice is deleting once. */
  lemma DeleteIdempotent(memos: seq<Memo>, id: string)
    ensures RemoveId(RemoveId(memos, id), id) == RemoveId(memos, id)
  {
    RemoveAbsentId(RemoveId(memos, id), id);
  }

  /** Deleting from a list with one more memo at the end deletes from the old list and keeps that memo unless it has the id. */
  lemma {:induction false} RemoveIdAppend(memos: seq<Memo>, m: Memo, id: string)
    ensures RemoveId(memos + [m], id) == RemoveId(memos, id) + (if m.id != id then [m] else [])
  {
    if memos == [] {
      assert memos + [m] == [m];
      assert RemoveId([m][1..], id) == [];
    } else {
      assert (memos + [m])[1..] == memos[1..] + [m];
      RemoveIdAppend(memos[1..], m, id);
    }
  }

  /** Saving under a fresh id and then deleting that id restores the list. */
  lemma DeleteUndoesSave(memos: seq<Memo>, draft: MemoDraft, id: string, createdAt: string)
    requires !HasId(memos, id)
    ensures RemoveId(memos + [SavedMemo(draft, id, createdAt)], id) == memos
  {
    RemoveIdAppend(memos, SavedMemo(draft, id, createdAt), id);
    RemoveAbsentId(memos, id);
  }

  /** A memo saved without a repetition tag shows exactly on its date. */
  lemma SavedWithoutTagShowsOnItsDate(draft: MemoDraft, id: string, createdAt: string, target: CivilDate, cal: LunarCalendar)
    requires ValidDate(target) && ValidDate(draft.date)
    requires draft.repeatType == None
    ensures IsActive(SavedMemo(draft, id, createdAt), target, cal) <==> target == draft.date
  {
    NoRepetitionOnAnchorOnly(SavedMemo(draft, id, createdAt), target, cal);
  }

  // ---------------------------------------------------------------------------
  // The store

  /** The memo list kept under the storage key; every operation rewrites it whole. */
  class MemoStore {
    var memos: seq<Memo>

    /** An empty store: `getAllMemosLocal` of a missing key reads `[]`. */
    constructor()
      ensures memos == []
    {
      memos := [];
    }

    /** `saveMemoLocal(draft)`, with the random id and the clock reading as parameters. */
    method Save(draft: MemoDraft, id: string, createdAt: string)
      modifies this
      ensures memos == old(memos) + [SavedMemo(draft, id, createdAt)]
    {
      memos := memos + [SavedMemo(draft, id, createdAt)];
    }

    /** `deleteMemoLocal(id)`. */
    method Delete(id: string)
      modifies this
      ensures memos == RemoveId(old(memos), id)
    {
      memos := RemoveId(memos, id);
    }

    /** `toggleMemoLocal(id)`. */
    method Toggle(id: string)
      modifies this
      ensures memos == ToggleId(old(memos), id)
    {
      memos := ToggleId(memos, id);
    }
  }
}
