/**
 * The Korean public-holiday resolver of constants.tsx: for a Gregorian year,
 * the map from dates to holiday labels, built in program order from
 *   1. the eight fixed solar holidays, each followed by its substitute holiday
 *      when it is one of six eligible holidays and falls on a weekend;
 *   2. the three-day Lunar New Year window around lunar 1/1, with one
 *      substitute after the window when any of its days is a Sunday;
 *   3. the same window rule around Chuseok, lunar 8/15;
 *   4. Buddha's Birthday, lunar 4/8, with a weekend substitute.
 * A later write to a date replaces an earlier one; `HolidaysOf` states the
 * result as the union of the four layers in that order (Dafny's `m + m'` keeps
 * the value of `m'` on common keys), and `GetHolidays` builds it step by step.
 */
module Holidays {
  import opened Gregorian
  import opened Lunar

  datatype FixedHoliday = FixedHoliday(month: int, day: int, name: string)

  const NEW_YEARS_DAY := "신정"
  const MEMORIAL_DAY := "현충일"

  /** The fixed solar holidays, in the order the resolver visits them. */
  const FIXED_HOLIDAYS: seq<FixedHoliday> := [
    FixedHoliday(1, 1, NEW_YEARS_DAY),
    FixedHoliday(3, 1, "삼일절"),
    FixedHoliday(5, 5, "어린이날"),
    FixedHoliday(6, 6, MEMORIAL_DAY),
    FixedHoliday(8, 15, "광복절"),
    FixedHoliday(10, 3, "개천절"),
    FixedHoliday(10, 9, "한글날"),
    FixedHoliday(12, 25, "성탄절")
  ]

  /** The fixed holidays that get a substitute holiday; 신정 and 현충일 are not among them. */
  const SUBSTITUTE_TARGETS: seq<string> := ["삼일절", "어린이날", "광복절", "개천절", "한글날", "성탄절"]

  const NEW_YEAR_WINDOW_LABEL := "설날 연휴"
  const NEW_YEAR_SUBSTITUTE_LABEL := "대체공휴일(설날)"
  const CHUSEOK_WINDOW_LABEL := "추석 연휴"
  const CHUSEOK_SUBSTITUTE_LABEL := "대체공휴일(추석)"
  const BUDDHAS_BIRTHDAY := "부처님오신날"

  function SubstituteLabel(name: string): string {
    "대체공휴일(" + name + ")"
  }

  predicate IsWeekend(d: Day) {
    Weekday(d) == Sunday || Weekday(d) == Saturday
  }

  /** The substitute day of a weekend holiday: one day after a Sunday, two after a Saturday. */
  function WeekendSubstitute(d: Day): (s: Day)
    requires IsWeekend(d)
    ensures Weekday(s) == Monday
    ensures d < s <= d + 2
  {
    d + (if Weekday(d) == Sunday then 1 else 2)
  }

  /** One holiday on day `d`, and, when it is `eligible` and `d` is a weekend day, its substitute. */
  function SingleDayLayer(d: Day, name: string, eligible: bool): map<Day, string> {
    map[d := name]
    + (if eligible && IsWeekend(d) then map[WeekendSubstitute(d) := SubstituteLabel(name)] else map[])
  }

  function FixedDay(year: int, i: nat): Day
    requires i < |FIXED_HOLIDAYS|
  {
    DayOf(CivilDate(year, FIXED_HOLIDAYS[i].month, FIXED_HOLIDAYS[i].day))
  }

  function FixedEntryLayer(year: int, i: nat): map<Day, string>
    requires i < |FIXED_HOLIDAYS|
  {
    SingleDayLayer(FixedDay(year, i), FIXED_HOLIDAYS[i].name, FIXED_HOLIDAYS[i].name in SUBSTITUTE_TARGETS)
  }

  /** The writes of the first `n` fixed holidays, each one over the ones before. */
  function FixedLayer(year: int, n: nat): map<Day, string>
    requires n <= |FIXED_HOLIDAYS|
  {
    if n == 0 then map[] else FixedLayer(year, n - 1) + FixedEntryLayer(year, n - 1)
  }

  function WindowDays(center: Day): seq<Day> {
    [center - 1, center, center + 1]
  }

  predicate WindowHasSunday(center: Day) {
    Weekday(center - 1) == Sunday || Weekday(center) == Sunday || Weekday(center + 1) == Sunday
  }

  /** A three-day lunar holiday window, and one substitute after it when a window day is a Sunday. */
  function WindowLayer(center: Day, windowLabel: string, subLabel: string): map<Day, string> {
    map[center - 1 := windowLabel, center := windowLabel, center + 1 := windowLabel]
    + (if WindowHasSunday(center) then map[center + 2 := subLabel] else map[])
  }

  function NewYearLayer(year: int, cal: LunarCalendar): map<Day, string> {
    WindowLayer(cal.toSolar(year, 1, 1), NEW_YEAR_WINDOW_LABEL, NEW_YEAR_SUBSTITUTE_LABEL)
  }

  function ChuseokLayer(year: int, cal: LunarCalendar): map<Day, string> {
    WindowLayer(cal.toSolar(year, 8, 15), CHUSEOK_WINDOW_LABEL, CHUSEOK_SUBSTITUTE_LABEL)
  }

  function BuddhaLayer(year: int, cal: LunarCalendar): map<Day, string> {
    SingleDayLayer(cal.toSolar(year, 4, 8), BUDDHAS_BIRTHDAY, true)
  }

  /** The holiday map of `year`: the four layers in program order, a later layer winning on a shared date. */
  function HolidaysOf(year: int, cal: LunarCalendar): map<Day, string> {
    FixedLayer(year, |FIXED_HOLIDAYS|) + NewYearLayer(year, cal) + ChuseokLayer(year, cal) + BuddhaLayer(year, cal)
  }

  /** `getHolidays(year)`. */
  method GetHolidays(year: int, cal: LunarCalendar) returns (holidays: map<Day, string>)
    ensures holidays == HolidaysOf(year, cal)
  {
    holidays := map[];
    for i := 0 to |FIXED_HOLIDAYS|
      invariant holidays == FixedLayer(year, i)
    {
      holidays := RegisterFixed(holidays, year, i);
    }
    var newYear := cal.toSolar(year, 1, 1);
    holidays := RegisterWindow(holidays, newYear, NEW_YEAR_WINDOW_LABEL, NEW_YEAR_SUBSTITUTE_LABEL);
    var chuseok := cal.toSolar(year, 8, 15);
    holidays := RegisterWindow(holidays, chuseok, CHUSEOK_WINDOW_LABEL, CHUSEOK_SUBSTITUTE_LABEL);
    var buddha := cal.toSolar(year, 4, 8);
    ghost var before := holidays;
    holidays := holidays[buddha := BUDDHAS_BIRTHDAY];
    if Weekday(buddha) == Sunday || Weekday(buddha) == Saturday {
      var sub := buddha + (if Weekday(buddha) == Sunday then 1 else 2);
      holidays := holidays[sub := SubstituteLabel(BUDDHAS_BIRTHDAY)];
    }
    SingleDayWrites(before, buddha, BUDDHAS_BIRTHDAY, true, holidays);
  }

  /** One pass of the `forEach` over `FIXED_HOLIDAYS`: the holiday, then its substitute if it has one. */
  method RegisterFixed(holidays: map<Day, string>, year: int, i: nat) returns (result: map<Day, string>)
    requires i < |FIXED_HOLIDAYS|
    ensures result == holidays + FixedEntryLayer(year, i)
  {
    var h := FIXED_HOLIDAYS[i];
    var date := DayOf(CivilDate(year, h.month, h.day));
    result := holidays[date := h.name];
    var isSubstituteTarget := h.name in SUBSTITUTE_TARGETS;
    if isSubstituteTarget {
      var dayOfWeek := Weekday(date);
      if dayOfWeek == Sunday || dayOfWeek == Saturday {
        var subDate := date + (if dayOfWeek == Sunday then 1 else 2);
        result := result[subDate := SubstituteLabel(h.name)];
      }
    }
    SingleDayWrites(holidays, date, h.name, isSubstituteTarget, result);
  }

  /** The two writes for one day-holiday are the union of `SingleDayLayer` over what was there. */
  lemma SingleDayWrites(before: map<Day, string>, d: Day, name: string, eligible: bool, after: map<Day, string>)
    requires after == if eligible && IsWeekend(d)
      then before[d := name][WeekendSubstitute(d) := SubstituteLabel(name)]
      else before[d := name]
    ensures after == before + SingleDayLayer(d, name, eligible)
  {
  }

  /** The prefix of a window's writes: the first `n` window days and the substitute once one of them is a Sunday. */
  ghost function WindowPrefix(center: Day, n: nat, windowLabel: string, subLabel: string): map<Day, string>
    requires n <= 3
  {
    if n == 0 then map[]
    else
      var d := center - 2 + n;
      WindowPrefix(center, n - 1, windowLabel, subLabel)[d := windowLabel]
      + (if Weekday(d) == Sunday then map[center + 2 := subLabel] else map[])
  }

  lemma WindowPrefixComplete(center: Day, windowLabel: string, subLabel: string)
    ensures WindowPrefix(center, 3, windowLabel, subLabel) == WindowLayer(center, windowLabel, subLabel)
  {
    var a, b, c := center - 1, center, center + 1;
    var l, sub := windowLabel, map[center + 2 := subLabel];
    var p0 := WindowPrefix(center, 0, windowLabel, subLabel);
    var p1 := WindowPrefix(center, 1, windowLabel, subLabel);
    var p2 := WindowPrefix(center, 2, windowLabel, subLabel);
    var p3 := WindowPrefix(center, 3, windowLabel, subLabel);
    assert p0 == map[];
    assert p1 == p0[a := l] + (if Weekday(a) == Sunday then sub else map[]);
    assert p2 == p1[b := l] + (if Weekday(b) == Sunday then sub else map[]);
    assert p3 == p2[c := l] + (if Weekday(c) == Sunday then sub else map[]);
    ThreeWrites(a, b, c, center + 2, l, subLabel, Weekday(a) == Sunday, Weekday(b) == Sunday, Weekday(c) == Sunday);
  }

  lemma ThreeWrites(a: Day, b: Day, c: Day, s: Day, l: string, sl: string, sa: bool, sb: bool, sc: bool)
    requires s != a && s != b && s != c
    ensures (((map[][a := l] + (if sa then map[s := sl] else map[]))[b := l] + (if sb then map[s := sl] else map[]))[c := l]
      + (if sc then map[s := sl] else map[]))
      == map[a := l, b := l, c := l] + (if sa || sb || sc then map[s := sl] else map[])
  {
  }

  /** The `forEach` over the three window days of 설날 or 추석. */
  method RegisterWindow(holidays: map<Day, string>, center: Day, windowLabel: string, subLabel: string)
    returns (result: map<Day, string>)
    ensures result == holidays + WindowLayer(center, windowLabel, subLabel)
  {
    var dates := WindowDays(center);
    result := holidays;
    for i := 0 to 3
      invariant result == holidays + WindowPrefix(center, i, windowLabel, subLabel)
    {
      ghost var before := result;
      assert dates[i] == center - 1 + i && dates[2] + 1 == center + 2;
      result := result[dates[i] := windowLabel];
      if Weekday(dates[i]) == Sunday {
        result := result[dates[2] + 1 := subLabel];
      }
      WindowStep(holidays, before, result, center, i, windowLabel, subLabel);
    }
    WindowPrefixComplete(center, windowLabel, subLabel);
  }

  /** One day of the window: its write, and the substitute's when it is a Sunday, extend the prefix by that day. */
  lemma WindowStep(holidays: map<Day, string>, before: map<Day, string>, after: map<Day, string>,
                   center: Day, i: nat, windowLabel: string, subLabel: string)
    requires i < 3
    requires before == holidays + WindowPrefix(center, i, windowLabel, subLabel)
    requires after == if Weekday(center - 1 + i) == Sunday
      then before[center - 1 + i := windowLabel][center + 2 := subLabel]
      else before[center - 1 + i := windowLabel]
    ensures after == holidays + WindowPrefix(center, i + 1, windowLabel, subLabel)
  {
    var d := center - 1 + i;
    var extra := if Weekday(d) == Sunday then map[center + 2 := subLabel] else map[];
    var prefix := WindowPrefix(center, i, windowLabel, subLabel);
    assert WindowPrefix(center, i + 1, windowLabel, subLabel) == prefix[d := windowLabel] + extra;
    assert after == before[d := windowLabel] + extra;
    WriteUnderUnion(holidays, WindowPrefix(center, i, windowLabel, subLabel), d, windowLabel, extra);
  }

  lemma WriteUnderUnion(base: map<Day, string>, layer: map<Day, string>, k: Day, v: string, extra: map<Day, string>)
    ensures (base + layer)[k := v] + extra == base + (layer[k := v] + extra)
  {
  }

  // ---------------------------------------------------------------------------
  // The fixed solar holidays

  /** Consecutive fixed holidays are more than two days apart, so no substitute lands on the next holiday. */
  lemma FixedDaysSpacedNext(year: int, i: nat)
    requires i + 1 < |FIXED_HOLIDAYS|
    ensures FixedDay(year, i) + 2 < FixedDay(year, i + 1)
  {
    if i == 0 {} else if i == 1 {} else if i == 2 {} else if i == 3 {}
    else if i == 4 {} else if i == 5 {} else {}
  }

  lemma {:induction false} FixedDaysSpaced(year: int, i: nat, j: nat)
    requires i < j < |FIXED_HOLIDAYS|
    ensures FixedDay(year, i) + 2 < FixedDay(year, j)
    decreases j - i
  {
    FixedDaysSpacedNext(year, i);
    if i + 1 < j {
      FixedDaysSpaced(year, i + 1, j);
    }
  }

  lemma SingleDayLayerKeys(d: Day, name: string, eligible: bool)
    ensures d in SingleDayLayer(d, name, eligible) && SingleDayLayer(d, name, eligible)[d] == name
    ensures d + 1 in SingleDayLayer(d, name, eligible) <==> eligible && Weekday(d) == Sunday
    ensures d + 2 in SingleDayLayer(d, name, eligible) <==> eligible && Weekday(d) == Saturday
    ensures forall k :: k in SingleDayLayer(d, name, eligible) && k != d ==>
      SingleDayLayer(d, name, eligible)[k] == SubstituteLabel(name) && Weekday(k) == Monday
    ensures forall k :: k in SingleDayLayer(d, name, eligible) ==> d <= k <= d + 2
  {
  }

  /** Every date in the first `n` fixed holidays' writes lies in some holiday's three-day reach, and before the next holiday. */
  lemma {:induction false} FixedLayerBounds(year: int, n: nat, k: Day)
    requires 0 < n <= |FIXED_HOLIDAYS|
    requires k in FixedLayer(year, n)
    ensures k <= FixedDay(year, n - 1) + 2
    ensures exists i :: 0 <= i < n && FixedDay(year, i) <= k <= FixedDay(year, i) + 2
  {
    SingleDayLayerKeys(FixedDay(year, n - 1), FIXED_HOLIDAYS[n - 1].name, FIXED_HOLIDAYS[n - 1].name in SUBSTITUTE_TARGETS);
    if k !in FixedEntryLayer(year, n - 1) {
      FixedLayerBounds(year, n - 1, k);
      FixedDaysSpaced(year, n - 2, n - 1);
    }
  }

  /** The `j`-th fixed holiday writes only its own day and the two after it. */
  lemma FixedEntryReach(year: int, j: nat, k: Day)
    requires j < |FIXED_HOLIDAYS|
    ensures k in FixedEntryLayer(year, j) ==> FixedDay(year, j) <= k <= FixedDay(year, j) + 2
  {
    SingleDayLayerKeys(FixedDay(year, j), FIXED_HOLIDAYS[j].name, FIXED_HOLIDAYS[j].name in SUBSTITUTE_TARGETS);
  }

  /** Around the `i`-th holiday, the fixed writes hold exactly what that holiday wrote. */
  lemma {:induction false} FixedLayerNear(year: int, i: nat, n: nat, k: Day)
    requires i < n <= |FIXED_HOLIDAYS|
    requires FixedDay(year, i) <= k <= FixedDay(year, i) + 2
    ensures k in FixedLayer(year, n) <==> k in FixedEntryLayer(year, i)
    ensures k in FixedLayer(year, n) ==> FixedLayer(year, n)[k] == FixedEntryLayer(year, i)[k]
  {
    var earlier, last := FixedLayer(year, n - 1), FixedEntryLayer(year, n - 1);
    assert FixedLayer(year, n) == earlier + last;
    if n == i + 1 {
      if i > 0 && k in earlier {
        FixedLayerBounds(year, i, k);
        FixedDaysSpaced(year, i - 1, i);
        assert false;
      }
      UnionOnTop(earlier, last, k);
    } else {
      FixedDaysSpaced(year, i, n - 1);
      FixedEntryReach(year, n - 1, k);
      UnionBelow(earlier, last, k);
      FixedLayerNear(year, i, n - 1, k);
    }
  }

  lemma UnionOnTop(below: map<Day, string>, above: map<Day, string>, k: Day)
    requires k !in below
    ensures k in below + above <==> k in above
    ensures k in above ==> (below + above)[k] == above[k]
  {
  }

  lemma UnionBelow(below: map<Day, string>, above: map<Day, string>, k: Day)
    requires k !in above
    ensures k in below + above <==> k in below
    ensures k in below ==> (below + above)[k] == below[k]
  {
  }

  /**
   * Each fixed holiday is written with its name; a substitute follows exactly
   * when the holiday is a substitute target on a Sunday (one day later) or a
   * Saturday (two days later), is labelled `대체공휴일(name)` and is a Monday.
   */
  lemma FixedHolidayRule(year: int, i: nat)
    requires i < |FIXED_HOLIDAYS|
    ensures var d, h, fixed := FixedDay(year, i), FIXED_HOLIDAYS[i], FixedLayer(year, |FIXED_HOLIDAYS|);
      && d in fixed && fixed[d] == h.name
      && (d + 1 in fixed <==> h.name in SUBSTITUTE_TARGETS && Weekday(d) == Sunday)
      && (d + 2 in fixed <==> h.name in SUBSTITUTE_TARGETS && Weekday(d) == Saturday)
      && (d + 1 in fixed ==> fixed[d + 1] == SubstituteLabel(h.name) && Weekday(d + 1) == Monday)
      && (d + 2 in fixed ==> fixed[d + 2] == SubstituteLabel(h.name) && Weekday(d + 2) == Monday)
  {
    var d, h := FixedDay(year, i), FIXED_HOLIDAYS[i];
    SingleDayLayerKeys(d, h.name, h.name in SUBSTITUTE_TARGETS);
    FixedLayerNear(year, i, |FIXED_HOLIDAYS|, d);
    FixedLayerNear(year, i, |FIXED_HOLIDAYS|, d + 1);
    FixedLayerNear(year, i, |FIXED_HOLIDAYS|, d + 2);
  }

  /** The fixed writes hold nothing but the holidays and the substitutes `FixedHolidayRule` describes. */
  lemma FixedLayerDomain(year: int, k: Day)
    requires k in FixedLayer(year, |FIXED_HOLIDAYS|)
    ensures exists i :: 0 <= i < |FIXED_HOLIDAYS| && FixedDay(year, i) <= k <= FixedDay(year, i) + 2
  {
    FixedLayerBounds(year, |FIXED_HOLIDAYS|, k);
  }

  /** Only 삼일절, 어린이날, 광복절, 개천절, 한글날 and 성탄절 are substitute targets; 신정 and 현충일 are not. */
  lemma SubstituteTargetsOfFixed(i: nat)
    requires i < |FIXED_HOLIDAYS|
    ensures FIXED_HOLIDAYS[i].name in SUBSTITUTE_TARGETS <==> FIXED_HOLIDAYS[i].name != NEW_YEARS_DAY && FIXED_HOLIDAYS[i].name != MEMORIAL_DAY
  {
  }

  // ---------------------------------------------------------------------------
  // The lunar holidays

  /**
   * A lunar window labels exactly the three consecutive days centred on its
   * lunar date, and adds its substitute, the day after the window, exactly when
   * one of the three is a Sunday; that substitute is then a Monday, Tuesday or
   * Wednesday.
   */
  lemma WindowLayerRule(center: Day, windowLabel: string, subLabel: string)
    ensures var w := WindowLayer(center, windowLabel, subLabel);
      && (forall d :: center - 1 <= d <= center + 1 ==> d in w && w[d] == windowLabel)
      && (center + 2 in w <==> WindowHasSunday(center))
      && (center + 2 in w ==> w[center + 2] == subLabel && Monday <= Weekday(center + 2) <= 3)
      && (forall d :: d in w ==> center - 1 <= d <= center + 2)
  {
  }

  /** A window that only touches Saturday (Thursday to Saturday) gets no substitute. */
  lemma SaturdayAloneNoSubstitute(center: Day, windowLabel: string, subLabel: string)
    requires Weekday(center + 1) == Saturday
    ensures center + 2 !in WindowLayer(center, windowLabel, subLabel)
  {
  }

  /** At most one day of a window is a Sunday, so the substitute is written at most once. */
  lemma WindowHasOneSundayAtMost(center: Day, i: int, j: int)
    requires center - 1 <= i < j <= center + 1
    ensures !(Weekday(i) == Sunday && Weekday(j) == Sunday)
  {
  }

  /** 부처님오신날 is one day, with a Monday substitute one day after a Sunday or two after a Saturday and none on a weekday. */
  lemma BuddhaRule(year: int, cal: LunarCalendar)
    ensures var b, layer := cal.toSolar(year, 4, 8), BuddhaLayer(year, cal);
      && b in layer && layer[b] == BUDDHAS_BIRTHDAY
      && (b + 1 in layer <==> Weekday(b) == Sunday)
      && (b + 2 in layer <==> Weekday(b) == Saturday)
      && (forall k :: k in layer && k != b ==> layer[k] == SubstituteLabel(BUDDHAS_BIRTHDAY) && Weekday(k) == Monday)
      && (forall k :: k in layer ==> b <= k <= b + 2)
  {
    SingleDayLayerKeys(cal.toSolar(year, 4, 8), BUDDHAS_BIRTHDAY, true);
  }

  // ---------------------------------------------------------------------------
  // The whole year

  /** A date is a holiday when some layer writes it, and it carries the label of the last layer that does. */
  lemma LaterWriteWins(year: int, cal: LunarCalendar, k: Day)
    ensures var fixed, ny, cs, bd := FixedLayer(year, |FIXED_HOLIDAYS|), NewYearLayer(year, cal), ChuseokLayer(year, cal), BuddhaLayer(year, cal);
      var all := HolidaysOf(year, cal);
      && (k in all <==> k in fixed || k in ny || k in cs || k in bd)
      && (k in bd ==> all[k] == bd[k])
      && (k !in bd && k in cs ==> all[k] == cs[k])
      && (k !in bd && k !in cs && k in ny ==> all[k] == ny[k])
      && (k !in bd && k !in cs && k !in ny && k in fixed ==> all[k] == fixed[k])
  {
  }

  /** A date strictly between the reach of the `i`-th fixed holiday and the next one is not in the fixed writes. */
  lemma NotFixedBetween(year: int, i: nat, k: Day)
    requires 0 < i < |FIXED_HOLIDAYS|
    requires FixedDay(year, i - 1) + 2 < k < FixedDay(year, i)
    ensures k !in FixedLayer(year, |FIXED_HOLIDAYS|)
  {
    if k in FixedLayer(year, |FIXED_HOLIDAYS|) {
      FixedLayerDomain(year, k);
      var j :| 0 <= j < |FIXED_HOLIDAYS| && FixedDay(year, j) <= k <= FixedDay(year, j) + 2;
      if j < i - 1 {
        FixedDaysSpaced(year, j, i - 1);
      } else if j > i {
        FixedDaysSpaced(year, i, j);
      }
    }
  }

  /**
   * When the three lunar holidays of `year` fall well inside it (as they do:
   * lunar 1/1 in late January or February, 4/8 in April to June, 8/15 in
   * September or October), every date of the year's map lies in `year` itself.
   */
  lemma HolidaysWithinYear(year: int, cal: LunarCalendar, k: Day)
    requires DayOf(CivilDate(year, 1, 1)) < cal.toSolar(year, 1, 1) && cal.toSolar(year, 1, 1) + 2 <= DayOf(CivilDate(year, 12, 31))
    requires DayOf(CivilDate(year, 1, 1)) < cal.toSolar(year, 8, 15) && cal.toSolar(year, 8, 15) + 2 <= DayOf(CivilDate(year, 12, 31))
    requires DayOf(CivilDate(year, 1, 1)) <= cal.toSolar(year, 4, 8) && cal.toSolar(year, 4, 8) + 2 <= DayOf(CivilDate(year, 12, 31))
    requires k in HolidaysOf(year, cal)
    ensures DayOf(CivilDate(year, 1, 1)) <= k <= DayOf(CivilDate(year, 12, 31))
  {
    LaterWriteWins(year, cal, k);
    WindowLayerRule(cal.toSolar(year, 1, 1), NEW_YEAR_WINDOW_LABEL, NEW_YEAR_SUBSTITUTE_LABEL);
    WindowLayerRule(cal.toSolar(year, 8, 15), CHUSEOK_WINDOW_LABEL, CHUSEOK_SUBSTITUTE_LABEL);
    BuddhaRule(year, cal);
    if k in FixedLayer(year, |FIXED_HOLIDAYS|) {
      FixedWithinYear(year, k);
    }
  }

  /** The fixed holidays and their substitutes run from 신정 on January 1 to at most two days after 성탄절. */
  lemma FixedWithinYear(year: int, k: Day)
    requires k in FixedLayer(year, |FIXED_HOLIDAYS|)
    ensures DayOf(CivilDate(year, 1, 1)) <= k <= DayOf(CivilDate(year, 12, 27))
  {
    FixedLayerBounds(year, |FIXED_HOLIDAYS|, k);
    var i :| 0 <= i < |FIXED_HOLIDAYS| && FixedDay(year, i) <= k <= FixedDay(year, i) + 2;
    if 0 < i {
      FixedDaysSpaced(year, 0, i);
    }
  }

  /** Every label a fixed holiday writes is non-empty. */
  lemma FixedLabelsNonEmpty(year: int, k: Day)
    requires k in FixedLayer(year, |FIXED_HOLIDAYS|)
    ensures FixedLayer(year, |FIXED_HOLIDAYS|)[k] != ""
  {
    FixedLayerDomain(year, k);
    var i :| 0 <= i < |FIXED_HOLIDAYS| && FixedDay(year, i) <= k <= FixedDay(year, i) + 2;
    FixedLayerNear(year, i, |FIXED_HOLIDAYS|, k);
    SingleDayLayerKeys(FixedDay(year, i), FIXED_HOLIDAYS[i].name, FIXED_HOLIDAYS[i].name in SUBSTITUTE_TARGETS);
    assert FIXED_HOLIDAYS[i].name != "";
  }

  /** Every label in a year's map is non-empty, so a lookup with JavaScript's `||` sees it. */
  lemma HolidayLabelsNonEmpty(year: int, cal: LunarCalendar, k: Day)
    requires k in HolidaysOf(year, cal)
    ensures HolidaysOf(year, cal)[k] != ""
  {
    var fixed, ny, cs, bd := FixedLayer(year, |FIXED_HOLIDAYS|), NewYearLayer(year, cal), ChuseokLayer(year, cal), BuddhaLayer(year, cal);
    LaterWriteWins(year, cal, k);
    SingleDayLayerKeys(cal.toSolar(year, 4, 8), BUDDHAS_BIRTHDAY, true);
    if k !in bd && k !in cs && k !in ny {
      FixedLabelsNonEmpty(year, k);
    }
  }

  /**
   * 2024: lunar 1/1 fell on Saturday 2024-02-10, Chuseok on 2024-09-17 and
   * Buddha's Birthday on 2024-05-15. The window is 02-09..02-11; 02-11 is a
   * Sunday, so 02-12 is 대체공휴일(설날); 어린이날 on Sunday 05-05 moves to 05-06.
   */
  lemma Holidays2024(year: int, cal: LunarCalendar)
    requires year == 2024
    requires cal.toSolar(2024, 1, 1) == DayOf(CivilDate(2024, 2, 10))
    requires cal.toSolar(2024, 8, 15) == DayOf(CivilDate(2024, 9, 17))
    requires cal.toSolar(2024, 4, 8) == DayOf(CivilDate(2024, 5, 15))
    ensures var h := HolidaysOf(year, cal);
      && DayOf(CivilDate(2024, 2, 9)) in h && h[DayOf(CivilDate(2024, 2, 9))] == NEW_YEAR_WINDOW_LABEL
      && DayOf(CivilDate(2024, 2, 10)) in h && h[DayOf(CivilDate(2024, 2, 10))] == NEW_YEAR_WINDOW_LABEL
      && DayOf(CivilDate(2024, 2, 11)) in h && h[DayOf(CivilDate(2024, 2, 11))] == NEW_YEAR_WINDOW_LABEL
      && DayOf(CivilDate(2024, 2, 12)) in h && h[DayOf(CivilDate(2024, 2, 12))] == NEW_YEAR_SUBSTITUTE_LABEL
      && DayOf(CivilDate(2024, 5, 5)) in h && h[DayOf(CivilDate(2024, 5, 5))] == "어린이날"
      && DayOf(CivilDate(2024, 5, 6)) in h && h[DayOf(CivilDate(2024, 5, 6))] == SubstituteLabel("어린이날")
  {
    var ny, cs := cal.toSolar(2024, 1, 1), cal.toSolar(2024, 8, 15);
    assert ny == 738926 && cs == 739146 && cal.toSolar(2024, 4, 8) == 739021;
    WindowLayerRule(ny, NEW_YEAR_WINDOW_LABEL, NEW_YEAR_SUBSTITUTE_LABEL);
    WindowLayerRule(cs, CHUSEOK_WINDOW_LABEL, CHUSEOK_SUBSTITUTE_LABEL);
    BuddhaRule(year, cal);
    FixedHolidayRule(year, 2);
    assert FixedDay(year, 2) == 739011;
    LaterWriteWins(year, cal, ny - 1);
    LaterWriteWins(year, cal, ny);
    LaterWriteWins(year, cal, ny + 1);
    LaterWriteWins(year, cal, ny + 2);
    LaterWriteWins(year, cal, 739011);
    LaterWriteWins(year, cal, 739012);
  }

  /**
   * 2024: Chuseok's window 09-16..09-18 ran Monday to Wednesday, so no
   * substitute day follows it and 09-19 is an ordinary day.
   */
  lemma Chuseok2024NoSubstitute(year: int, cal: LunarCalendar)
    requires year == 2024
    requires cal.toSolar(2024, 1, 1) == DayOf(CivilDate(2024, 2, 10))
    requires cal.toSolar(2024, 8, 15) == DayOf(CivilDate(2024, 9, 17))
    requires cal.toSolar(2024, 4, 8) == DayOf(CivilDate(2024, 5, 15))
    ensures DayOf(CivilDate(2024, 9, 19)) !in HolidaysOf(year, cal)
  {
    var ny, cs := cal.toSolar(2024, 1, 1), cal.toSolar(2024, 8, 15);
    var sep19 := DayOf(CivilDate(2024, 9, 19));
    assert ny == 738926 && cs == 739146 && sep19 == 739148 && cal.toSolar(2024, 4, 8) == 739021;
    WindowLayerRule(ny, NEW_YEAR_WINDOW_LABEL, NEW_YEAR_SUBSTITUTE_LABEL);
    WindowLayerRule(cs, CHUSEOK_WINDOW_LABEL, CHUSEOK_SUBSTITUTE_LABEL);
    SingleDayLayerKeys(739021, BUDDHAS_BIRTHDAY, true);
    var f4, f5 := FixedDay(year, 4), FixedDay(year, 5);
    assert f4 == 739113 && f5 == 739162;
    NotFixedBetween(year, 5, sep19);
    LaterWriteWins(year, cal, sep19);
  }

  /** 2026: no lunar holiday comes near 2026-01-01, so it reads 신정. */
  lemma NewYearsDay2026(year: int, cal: LunarCalendar)
    requires year == 2026
    requires cal.toSolar(2026, 1, 1) == DayOf(CivilDate(2026, 2, 17))
    requires cal.toSolar(2026, 8, 15) == DayOf(CivilDate(2026, 9, 25))
    requires cal.toSolar(2026, 4, 8) == DayOf(CivilDate(2026, 5, 24))
    ensures var h := HolidaysOf(year, cal);
      DayOf(CivilDate(2026, 1, 1)) in h && h[DayOf(CivilDate(2026, 1, 1))] == NEW_YEARS_DAY
  {
    var jan1 := DayOf(CivilDate(2026, 1, 1));
    assert jan1 == 739617 && FixedDay(year, 0) == jan1;
    assert cal.toSolar(2026, 1, 1) == 739664 && cal.toSolar(2026, 8, 15) == 739884 && cal.toSolar(2026, 4, 8) == 739760;
    FixedLayerNear(year, 0, |FIXED_HOLIDAYS|, jan1);
    SingleDayLayerKeys(jan1, NEW_YEARS_DAY, false);
    WindowLayerRule(cal.toSolar(2026, 1, 1), NEW_YEAR_WINDOW_LABEL, NEW_YEAR_SUBSTITUTE_LABEL);
    WindowLayerRule(cal.toSolar(2026, 8, 15), CHUSEOK_WINDOW_LABEL, CHUSEOK_SUBSTITUTE_LABEL);
    SingleDayLayerKeys(cal.toSolar(2026, 4, 8), BUDDHAS_BIRTHDAY, true);
    LaterWriteWins(year, cal, jan1);
  }

  /**
   * 2025: Buddha's Birthday fell on Monday 2025-05-05, the date of 어린이날.
   * The later write wins, so that date reads 부처님오신날, and as neither day is
   * a weekend day no substitute follows. Chuseok's window 10-05..10-07 starts
   * on a Sunday, so 10-08 is 대체공휴일(추석), the day before 한글날.
   */
  lemma Holidays2025Collision(year: int, cal: LunarCalendar)
    requires year == 2025
    requires cal.toSolar(2025, 1, 1) == DayOf(CivilDate(2025, 1, 29))
    requires cal.toSolar(2025, 8, 15) == DayOf(CivilDate(2025, 10, 6))
    requires cal.toSolar(2025, 4, 8) == DayOf(CivilDate(2025, 5, 5))
    ensures var h := HolidaysOf(year, cal);
      && DayOf(CivilDate(2025, 5, 5)) in h && h[DayOf(CivilDate(2025, 5, 5))] == BUDDHAS_BIRTHDAY
      && DayOf(CivilDate(2025, 5, 6)) !in h
      && DayOf(CivilDate(2025, 10, 8)) in h && h[DayOf(CivilDate(2025, 10, 8))] == CHUSEOK_SUBSTITUTE_LABEL
      && DayOf(CivilDate(2025, 10, 9)) in h && h[DayOf(CivilDate(2025, 10, 9))] == "한글날"
  {
    var ny, cs, bd := cal.toSolar(2025, 1, 1), cal.toSolar(2025, 8, 15), cal.toSolar(2025, 4, 8);
    assert ny == 739280 && cs == 739530 && bd == 739376;
    WindowLayerRule(ny, NEW_YEAR_WINDOW_LABEL, NEW_YEAR_SUBSTITUTE_LABEL);
    WindowLayerRule(cs, CHUSEOK_WINDOW_LABEL, CHUSEOK_SUBSTITUTE_LABEL);
    BuddhaRule(year, cal);
    FixedHolidayRule(year, 2);
    FixedHolidayRule(year, 6);
    assert FixedDay(year, 2) == bd && FixedDay(year, 6) == cs + 3;
    LaterWriteWins(year, cal, bd);
    LaterWriteWins(year, cal, bd + 1);
    LaterWriteWins(year, cal, cs + 2);
    LaterWriteWins(year, cal, cs + 3);
  }
}
