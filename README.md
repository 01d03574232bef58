# Korean calendar engine: a verified Dafny model

This project models the calendar engine of a Korean memo calendar, written in TypeScript and React. The engine has three parts:

- **Holiday resolver** (`getHolidays` in constants.tsx). For a Gregorian year it builds the map from dates to holiday labels. The map holds:
  - the eight fixed solar holidays;
  - a substitute holiday (대체공휴일) for the six eligible ones that fall on a weekend;
  - the three-day 설날 and 추석 windows around lunar 1/1 and 8/15, each with a substitute only when a window day is a Sunday;
  - 부처님오신날 on lunar 4/8, with a weekend substitute.

  Writes happen in program order, and a later write to a date replaces an earlier one.
- **Recurrence matcher and memo store** (services/supabaseClient.ts). The matcher decides whether a memo shows on a date under no, weekly, monthly, yearly-solar or yearly-lunar repetition. The store operations append, delete and toggle memos in the stored list.
- **Calendar screen** (App.tsx), covering:
  - the `JIE_QI_MAP` solar-term table and its lookup with an upper-case fallback;
  - the per-year term map;
  - the details of one day;
  - the 42-cell month grid and the colour of a cell's date;
  - the add, toggle and delete handlers of the memo panel.

## How dates and the library are modelled

- **Dates.** A date is an integer day number (Rata Die: day 1 is 0001-01-01, a Monday). `Gregorian.DayOf` numbers a (year, month, day) triple, and `Weekday(d) = d % 7` is date-fns' `getDay`, with 0 for Sunday.
- **Map keys.** The lemmas `DayOfNext` and `DayOfInjective` show that the numbering is consecutive and one-to-one on real dates. So a map keyed by day number stands for the source's map keyed by `YYYY-MM-DD` strings.
- **The lunar library.** `lunar-javascript` is represented by a `Lunar.LunarCalendar` value, a record of three total functions. `toSolar(y, m, d)` is `Lunar.fromYmd(y, m, d).getSolar()`, `toLunar(d)` is `Lunar.fromDate`, and `jieQiTable(y)` is the term table of a year. Nothing is assumed about these functions, so every property holds whatever the library computes. The concrete-year lemmas state the library's answers they rely on as preconditions.
- **Form of the code.** `getHolidays`, the term-map builder and the stored list are imperative in the source, so they are Dafny methods with loop invariants and classes with `modifies` clauses. Each method is proved equal to a specification function (`HolidaysOf`, `TermMapOf`, `RemoveId`, `ToggleId`), and the lemmas state the source's rules about those functions.

Files:

- `wrappers.dfy`: the `Option` type.
- `gregorian.dfy`: calendar arithmetic.
- `lunar.dfy`: the library interface.
- `holidays.dfy`: constants.tsx.
- `memos.dfy`: services/supabaseClient.ts.
- `solar_terms.dfy`: the term table and the term map of App.tsx.
- `calendar_view.dfy`: day details, grid and memo handlers of App.tsx.

## Model

| member | source | states |
|---|---|---|
| Gregorian.DaysInMonth | services/supabaseClient.ts:41-44 | a month has 28 to 31 days, and 29 exactly for February of a leap year |
| Gregorian.Weekday | services/supabaseClient.ts:39-40 | `getDay` is a weekday number from 0 (Sunday) to 6 (Saturday) |
| Gregorian.DayOfNext | App.tsx:255 | `addDays(d, 1)` is the next calendar date: the day after a valid date is valid and its number is one more |
| Gregorian.DayOfInjective | constants.tsx:32-34 | two real dates with the same day number are the same date, so day-number keys stand for `YYYY-MM-DD` keys |
| Gregorian.CivilOf | App.tsx:255 | every day number, such as a grid cell `addDays(start, i)`, is the number of exactly one real date, whose `yyyy-MM-dd` key it stands for |
| Gregorian.CivilOfDayOf | App.tsx:255 | turning a real date into its day number and back gives the same date |
| Gregorian.DayOfStrictlyMonotone | services/supabaseClient.ts:36 | the day numbering keeps the calendar order, which is the order `targetDate < memoDate` compares |
| Gregorian.SameWeekday | services/supabaseClient.ts:39-40 | two days have the same `getDay` exactly when they are a whole number of weeks apart |
| Gregorian.KnownWeekdays | constants.tsx:39-40 | 2024-01-01 is a Monday and 2024-02-10 a Saturday, as `getDay` reports them |
| Holidays.GetHolidays | constants.tsx:27-96 | the loop over the fixed holidays, the two windows and the Buddha write build exactly `HolidaysOf(year)`, the four layers in program order |
| Holidays.HolidaysOf | constants.tsx:27-96 | the year's map as the right-biased union of the fixed, 설날, 추석 and Buddha layers, each layer the writes of one block of `getHolidays`; its properties are the lemmas below |
| Holidays.RegisterFixed | constants.tsx:31-47 | one pass over a fixed holiday writes its name on its date, then its substitute when it is an eligible weekend holiday |
| Holidays.RegisterWindow | constants.tsx:58-65 | the loop over the three window days writes the window label on each, and writes the substitute after the window whenever a day is a Sunday |
| Holidays.WeekendSubstitute | constants.tsx:40-41 | the substitute of a weekend day is one day after a Sunday or two after a Saturday, and is always a Monday |
| Holidays.FixedHolidayRule | constants.tsx:16-47 | every fixed holiday is written with its name; `대체공휴일(name)` appears at day+1 exactly for an eligible Sunday holiday and at day+2 exactly for an eligible Saturday one, on a Monday; there is none on a weekday |
| Holidays.SubstituteTargetsOfFixed | constants.tsx:37 | a fixed holiday is a substitute target exactly when it is neither 신정 nor 현충일 |
| Holidays.FixedDaysSpaced | constants.tsx:16-25 | the fixed holidays are more than two days apart, so no substitute lands on a later fixed holiday |
| Holidays.FixedLayerDomain | constants.tsx:31-47 | the fixed writes contain only dates within two days after some fixed holiday |
| Holidays.NotFixedBetween | constants.tsx:31-47 | a date strictly between the reach of one fixed holiday and the next is not written |
| Holidays.FixedWithinYear | constants.tsx:31-47 | the fixed writes run from January 1 to at most December 27 of the year |
| Holidays.WindowLayerRule | constants.tsx:51-82 | a lunar window labels exactly the three days centred on its lunar date; its substitute, the day after the window, exists exactly when a window day is a Sunday, and then falls on Monday to Wednesday |
| Holidays.SaturdayAloneNoSubstitute | constants.tsx:61-64 | a window ending on a Saturday, with no Sunday in it, gets no substitute |
| Holidays.WindowHasOneSundayAtMost | constants.tsx:58-64 | at most one window day is a Sunday, so the substitute is written at most once |
| Holidays.BuddhaRule | constants.tsx:85-93 | 부처님오신날 is written on lunar 4/8, with a Monday substitute at +1 after a Sunday or +2 after a Saturday and none otherwise |
| Holidays.LaterWriteWins | constants.tsx:27-96 | a date is a holiday when any layer writes it, and carries the label of the last layer that does: Buddha over 추석 over 설날 over fixed |
| Holidays.HolidaysWithinYear | constants.tsx:27-96 | when the lunar holidays fall inside the year, every date of the year's map is a date of that year |
| Holidays.FixedLabelsNonEmpty | constants.tsx:16-47 | no label written by the fixed loop is empty |
| Holidays.HolidayLabelsNonEmpty | constants.tsx:27-96 | no label of the map is empty |
| Holidays.Holidays2024 | constants.tsx:51-64 | 2024: 02-09 to 02-11 are 설날 연휴; 02-12 is 대체공휴일(설날); 어린이날 on Sunday 05-05 moves to Monday 05-06 |
| Holidays.Chuseok2024NoSubstitute | constants.tsx:68-82 | 2024: the 추석 window runs Monday to Wednesday, so 09-19 is no holiday |
| Holidays.Holidays2025Collision | constants.tsx:85-93 | 2025: 부처님오신날 overwrites 어린이날 on 05-05 with no substitute, and the 추석 window starting on a Sunday gives 대체공휴일(추석) on 10-08 |
| Holidays.NewYearsDay2026 | constants.tsx:16-17 | 2026: 2026-01-01 reads 신정 |
| Memos.MemosForDateSpec | services/supabaseClient.ts:29-51 | the memos of a date are the stored memos active on it, in stored order, with their multiplicities: an order-preserving subsequence |
| Memos.MemosForDate | services/supabaseClient.ts:22-51 | `memos.filter(...)` with the matcher as the test; what it keeps is stated by `MemosForDateSpec` and `MemosForDateAppend` |
| Memos.IsActive | services/supabaseClient.ts:29-50 | the matcher, one case per branch of the source; each case is stated by the rule lemmas below |
| Memos.MemosForDateAppend | services/supabaseClient.ts:29-51 | filtering a list with one more memo at the end gives the old result, followed by that memo when it is active |
| Memos.NoRepetitionOnAnchorOnly | services/supabaseClient.ts:32-34 | a memo tagged NONE or with no tag shows exactly on its anchor date |
| Memos.RepeatingStartsAtAnchor | services/supabaseClient.ts:36 | a repeating memo never shows before its anchor, and each known rule shows it on the anchor itself |
| Memos.WeeklyRule | services/supabaseClient.ts:39-40 | a weekly memo shows from its anchor on, every seventh day |
| Memos.MonthlyRule | services/supabaseClient.ts:41-42 | a monthly memo shows from its anchor on, exactly on dates with the same day of the month |
| Memos.MonthlyOn31stSkipsShortMonths | services/supabaseClient.ts:41-42 | a monthly memo anchored on the 31st never shows in a month without a 31st |
| Memos.YearlySolarRule | services/supabaseClient.ts:43-44 | a yearly-solar memo shows from its anchor on, exactly on dates with the same month and day |
| Memos.YearlySolarLeapDay | services/supabaseClient.ts:43-44 | a yearly-solar memo anchored on 29 February shows only in leap years |
| Memos.YearlyLunarRule | services/supabaseClient.ts:45-47 | a yearly-lunar memo shows from its anchor on, exactly where the library's lunar month and day equal the anchor's |
| Memos.YearlyLunarComparesMonthAndDayOnly | services/supabaseClient.ts:45-47 | only the library's `getMonth()` and `getDay()` are compared: two libraries that agree on those values give the same answer |
| Memos.UnrecognizedNeverActive | services/supabaseClient.ts:48-49 | a memo with an unrecognised non-empty tag shows on no date |
| Memos.SavedMemo | services/supabaseClient.ts:54-67 | a saved memo gets the drawn id and time, `local_user`, `completed = false`, the draft's fields, and NONE for a missing or falsy tag |
| Memos.SavedWithoutTagShowsOnItsDate | services/supabaseClient.ts:54-67 | a memo saved without a tag shows exactly on its date |
| Memos.RemoveId | services/supabaseClient.ts:72-76 | deleting keeps an order-preserving subsequence with no memo of that id, and every other memo as often as before |
| Memos.RemoveAbsentId | services/supabaseClient.ts:72-76 | deleting an id no memo has changes nothing |
| Memos.DeleteIdempotent | services/supabaseClient.ts:72-76 | deleting twice is deleting once |
| Memos.RemoveIdAppend | services/supabaseClient.ts:72-76 | deleting from a list with one more memo at the end keeps that memo exactly when its id differs |
| Memos.DeleteUndoesSave | services/supabaseClient.ts:54-76 | deleting a just-saved memo by its fresh id gives back the list before the save |
| Memos.ToggleId | services/supabaseClient.ts:78-82 | toggling keeps the length and flips `completed` on exactly the memos with that id, leaving the others as they were |
| Memos.ToggleTwice | services/supabaseClient.ts:78-82 | toggling twice restores the list |
| Memos.ToggleKeepsIds | services/supabaseClient.ts:78-82 | toggling keeps every memo's id, so no id appears or disappears |
| Memos.ToggleAbsentId | services/supabaseClient.ts:78-82 | toggling an id no memo has changes nothing |
| Memos.MemoStore.constructor | services/supabaseClient.ts:18-20 | a store without saved data holds the empty list |
| Memos.MemoStore.Save | services/supabaseClient.ts:54-70 | saving appends exactly the saved memo at the end |
| Memos.MemoStore.Delete | services/supabaseClient.ts:72-76 | the stored list becomes `RemoveId` of the old one |
| Memos.MemoStore.Toggle | services/supabaseClient.ts:78-82 | the stored list becomes `ToggleId` of the old one |
| SolarTerms.TraditionalInTable | App.tsx:44-47 | each of the 24 traditional hanja keys survives the union of the four groups with its own Korean term, since no later group repeats it |
| SolarTerms.SimplifiedInTable | App.tsx:50 | each of the six simplified hanja keys survives the union with its own Korean term |
| SolarTerms.SnakeCaseInTable | App.tsx:53-56 | each of the 24 SNAKE_CASE keys survives the union with its own Korean term |
| SolarTerms.CamelCaseInTable | App.tsx:59-62 | each of the 24 CamelCase keys, the last group, is in the table with its own Korean term |
| SolarTerms.SimplifiedAreNew | App.tsx:50 | no simplified spelling repeats a traditional key |
| SolarTerms.KeysNonEmpty | App.tsx:42-63 | no key of the table is empty |
| SolarTerms.HangulApart | App.tsx:42-63 | no name ending in a Hangul syllable is a key |
| SolarTerms.ToUpper | App.tsx:100 | `toUpperCase` keeps the length and maps `a`–`z` to `A`–`Z`, leaving every other character alone |
| SolarTerms.JieQiLabel | App.tsx:100 | the exact key wins; else the upper-case key; a known name gives a Korean term name and any other name is kept unchanged; the lookup never fails |
| SolarTerms.TableValuesAreTerms | App.tsx:42-63 | every label of the table is one of the 24 Korean term names |
| SolarTerms.TableValues | App.tsx:42-63 | the set of labels of the table is exactly the 24 Korean term names |
| SolarTerms.SpellingsAgreeFebMar | App.tsx:42-63 | 立春/LI_CHUN/Lichun give 입춘; likewise 우수, 경칩 and 춘분 |
| SolarTerms.SpellingsAgreeAprMay | App.tsx:42-63 | the three spellings of 청명, 곡우, 입하 and 소만 give the same Korean name |
| SolarTerms.SpellingsAgreeJunJul | App.tsx:42-63 | the same for 망종, 하지, 소서 and 대서 |
| SolarTerms.SpellingsAgreeAugSep | App.tsx:42-63 | the same for 입추, 처서, 백로 and 추분 |
| SolarTerms.SpellingsAgreeOctNov | App.tsx:42-63 | the same for 한로, 상강, 입동 and 소설 |
| SolarTerms.SpellingsAgreeDecJan | App.tsx:42-63 | the same for 대설, 동지, 소한 and 대한 |
| SolarTerms.SimplifiedAgreeSpring | App.tsx:50 | 惊蛰, 清明 and 谷雨 give the same term as 驚蟄, 淸明 and 穀雨 |
| SolarTerms.SimplifiedAgreeSummer | App.tsx:50 | 小满, 芒种 and 处暑 give the same term as 小滿, 芒種 and 處暑 |
| SolarTerms.LowerSnakeCaseFound | App.tsx:100 | `li_chun` is no key, but its upper case `LI_CHUN` is, so it gives 입춘 |
| SolarTerms.LowerCamelCaseKept | App.tsx:100 | `lichun` and its upper case `LICHUN` are not keys, so `lichun` is kept as it is |
| SolarTerms.KoreanTermKept | App.tsx:100 | a Korean term name is no key and is kept unchanged |
| SolarTerms.JieQiLabelIdempotent | App.tsx:100 | looking up a looked-up label changes nothing |
| SolarTerms.JieQiLabelEmpty | App.tsx:100 | the label is empty exactly when the name is empty |
| SolarTerms.BuildTermMap | App.tsx:90-104 | the loop over the library's table builds exactly `TermMapOf(table)` |
| SolarTerms.TermMapOf | App.tsx:95-101 | the term map as the table's entries written in order, later entries on a date replacing earlier ones; stated by `TermMapKeys` and `TermMapLastWins` |
| SolarTerms.TermMapKeys | App.tsx:95-97 | a date is in the term map exactly when some table entry has that date |
| SolarTerms.TermMapLastWins | App.tsx:95-101 | a date's label is the label of the last table entry on that date |
| SolarTerms.TermMapLabelsNonEmpty | App.tsx:95-101 | when no term name is empty, no label of the term map is empty |
| CalendarView.DayHolidayRule | App.tsx:106-112 | a day shows a holiday exactly when the year's holiday map lists it, and then with the map's label |
| CalendarView.GetDayDetails | App.tsx:106-112 | the holiday, the term and the lunar date of one day: the two map lookups with the `or null` fallback and `Lunar.fromDate`; stated by `DayHolidayRule` and `DayTermRule` |
| CalendarView.DayTermRule | App.tsx:106-112 | a day shows a solar term exactly when the year's term map lists it, and then with the map's label |
| CalendarView.StartOfWeek | App.tsx:255 | `startOfWeek` gives the Sunday on or before the day |
| CalendarView.MonthGrid | App.tsx:254-255 | the month view always has 42 cells |
| CalendarView.GridWeekdays | App.tsx:254-255 | the 42 cells start at the Sunday on or before the 1st and run day by day; cell `i` falls on weekday `i % 7` |
| CalendarView.GridCoversMonth | App.tsx:254-255 | every day of the month has its cell, and the 1st is in the first row |
| CalendarView.AdjacentYearCellsShowNoHoliday | App.tsx:254-256 | a grid cell outside the visible year shows no holiday, since only the visible year's map is consulted |
| CalendarView.NewYearsDayAfterDecember2025 | App.tsx:254-256 | in the grid of December 2025, cell 32 is 2026-01-01 and shows no holiday, though 2026's map lists 신정 there |
| CalendarView.CellDetails | App.tsx:254-256 | the details of cell `i`, taken from the visible year's maps; stated by `AdjacentYearCellsShowNoHoliday` and `NewYearsDayAfterDecember2025` |
| CalendarView.DateColorOf | App.tsx:262 | the colour class of a cell's date; stated by `DateColorRule` |
| CalendarView.DateColorRule | App.tsx:260-262 | a date is red exactly on a Sunday or a holiday, and blue exactly on a Saturday that is no holiday |
| CalendarView.TrimStart | App.tsx:160 | removes exactly the leading run of whitespace characters |
| CalendarView.TrimEnd | App.tsx:160 | removes exactly the trailing run of whitespace characters |
| CalendarView.Trim | App.tsx:160 | `s.trim()` as the two trims in turn; stated by `TrimEmptyIffBlank` |
| CalendarView.TrimEmptyIffBlank | App.tsx:160 | `!s.trim()` holds exactly when every character of `s` is whitespace |
| CalendarView.NewMemo | App.tsx:161-170 | the memo built by `handleAddMemo` carries the drawn id and time, `local_user`, the given date, type and content, `completed = false`, NONE and no reminder |
| CalendarView.NewMemoShowsOnItsDateOnly | App.tsx:161-171 | the added memo shows on the selected date, first in that date's list, and on no other date |
| CalendarView.NewMemoShowsOnClickedCell | App.tsx:265 | a memo added after clicking a cell shows exactly on the date of that cell |
| CalendarView.DeleteUndoesAdd | App.tsx:183-188 | deleting the added memo by its fresh id gives back the list it was added to |
| CalendarView.ToggleNewMemo | App.tsx:177-181 | toggling the added memo by its fresh id flips it alone |
| CalendarView.CalendarApp.constructor | App.tsx:69-74 | the screen starts with no memos, an empty input, today selected and the `TODO` type |
| CalendarView.CalendarApp.SelectDate | App.tsx:265 | clicking the cell of a day selects the real date with that day number and changes nothing else |
| CalendarView.CalendarApp.SelectType | App.tsx:313 | choosing a type changes only the selected type |
| CalendarView.CalendarApp.SetInput | App.tsx:310 | typing changes only the input |
| CalendarView.CalendarApp.AddMemo | App.tsx:159-175 | a blank input changes nothing; otherwise one memo with the untrimmed input is put first, so the old list is the tail, and the input is cleared. The memo carries the selected date and type, `local_user`, `completed = false`, NONE and no reminder |
| CalendarView.CalendarApp.ToggleMemo | App.tsx:177-181 | the list becomes `ToggleId` of the old one |
| CalendarView.CalendarApp.DeleteMemo | App.tsx:183-188 | an unconfirmed delete changes nothing; a confirmed one makes the list `RemoveId` of the old one |

## Left out

- Storage and I/O are not modelled: `localStorage`, the Supabase client, services/fileSystemService.ts and the writes of `saveToStorage`. The stored list is a sequence field, and each handler's new list is what it would write.
- services/geminiService.ts (the fortune text), components/ProfileSetup.tsx, index.tsx, the rendering, CSS classes and React hooks are not part of this model. The hooks' memoisation by year is modelled as taking the visible year's maps.
- `crypto.randomUUID`, `Math.random` and `new Date().toISOString()` are nondeterministic, so the id and the creation time are parameters. The `confirm()` dialog's answer is a parameter as well.
- The internals of `lunar-javascript` are not part of this model: its conversions and term table are the uninterpreted functions of `LunarCalendar`.
- JavaScript `Date` time-of-day and time-zone behaviour is not modelled. This covers `parseISO`'s local midnight and `new Date(toYmdHms())`; every date is a whole day.
- The zero-padded four-digit year format of `yyyy-MM-dd` is not modelled. Keys are day numbers, which `DayOfInjective` shows stand for the date strings of real dates.
- App.tsx imports `getFilteredMemos` from services/supabaseClient.ts, which does not define it. The matcher modelled is `getMemosForDate` (services/supabaseClient.ts:22), and the memo list is passed to it as a parameter instead of being read from storage.
- types.ts is not part of this model. `RepeatType.NONE` is taken to be a non-empty tag. The other string values the stored tag can hold are grouped as `Unrecognized(raw)`, and the empty string counts as falsy.
- Memos.IsActive: when a memo's anchor is not a real date, `parseISO` gives an invalid `Date`. The model treats that memo as active on no date. In JavaScript, a YEARLY_LUNAR memo with such an anchor would make the library convert an invalid date, and that behaviour is not modelled.
- SolarTerms.ToUpper: only maps `a`–`z`. JavaScript's `toUpperCase` also maps other letters (for example `ß` to `SS`, which changes the length). Every key of the table is ASCII or hanja, so only names with such letters could be looked up differently.
- JavaScript object-prototype keys (such as `constructor`) looked up in `JIE_QI_MAP` are not modelled: the table is a plain map.
- The solar-term lookup neither trims names nor strips underscores. It tries the exact name, then `name.toUpperCase()`, then keeps the raw name (App.tsx:100), so `lichun` stays `lichun` (`LowerCamelCaseKept`).
- Grid cells in the previous or the next year are looked up only in the visible year's maps (App.tsx:88-104, 254-256), so they show no holiday (`AdjacentYearCellsShowNoHoliday`).
- The grid's `isSameDay`/`isSameMonth` highlighting and the lunar-date text of a cell are rendering only.
