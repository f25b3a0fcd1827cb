# Training calendar: a Dafny model of the program state, the calculator, storage and ICS export

This project models the core of a desktop application for planning a yearly
training programme. The user marks a date range on a calendar, picks the
weekdays to train and a time window per weekday, and adds or removes
individual dates. Dated events can be added too. The application then
summarises the programme (selected days, minutes in total, per month and per
programme week), saves it as JSON or CSV, and exports it as an iCalendar file.

The modules are:

- `Wrappers`: `Option` and `Result`.
- `Text`: the Java string operations the code relies on:
  - `%0Nd` zero padding (`Decimal`) and `String.valueOf(int)`;
  - truncating division;
  - `String.trim` and `String.isBlank`.
- `Calendar`: `java.time.LocalDate` as a day number counted from 1970-01-01:
  - conversion to and from year/month/day, and the day of the week;
  - ISO `yyyy-MM-dd` text, with both round trips proved;
  - `LocalTime` as seconds of the day, with `HH:mm[:ss]` text.
- `TimeRanges`, `Events`, `Summaries`: the records `TimeRange`,
  `CalendarEvent` and `ProgramSummary`.
- `Program`:
  - the `ProgramState` class, whose methods update its fields in place;
  - its queries (`hasRange`, `minDate`, `maxDate`, `isInsideRange`,
    `isSelected`), stated on the value of its fields, `StateData`.
- `Calculator`: `ProgramCalculator.calculate`. It is a loop over the range,
  proved against recursive functions over a prefix of the range. Lemmas show:
  - the count is the number of selected dates;
  - the month and week breakdowns each add up to the total;
  - the keys are exactly the months and weeks that hold a selected date;
  - `weeksWithTraining` is at most `weeksInRange`.
- `Storage`: `ProgramStorage`:
  - the JSON transfer records (`SaveDto`, `TimeRangeDto`, `EventDto`,
    `SummaryDto`) as datatypes whose absent fields are `None`, as Jackson
    leaves them `null`;
  - `SaveDto.from` as loops that fill the record, `toState` as loops that
    read it back, both proved against the function `Load`;
  - the save/load round trip: loading a saved state gives back every field;
  - `saveCsv` as a loop proved against the rows of the range, whose dates,
    count and minutes agree with the summary.
- `Ics`: `IcsExporter.export` and its helpers `esc`, `vline`, `fmtLocal` and
  `fmtUtc`. The document is a list of lines joined with line feeds that are
  then replaced by CRLF. Lemmas show:
  - escaping loses nothing: escaped text reads back as the original;
  - the date-time texts read back as the date-times they were made from;
  - the document is framed by `BEGIN:VCALENDAR`/`END:VCALENDAR` and holds one
    VEVENT per training date and per event and one VALARM per reminder;
  - every line feed of the file is part of a CRLF pair.
- `Dialog`: the handlers of `CalendarioAnualDialog` that change the program
  state, and its small formatting helpers:
  - the `CalendarDialog` class holds the state it edits and the drag fields
    (`dragging`, `previewStart`, `previewEnd`) plus the flag
    `cargandoDesdeArchivo` (`loadingFromFile`);
  - each handler is a method on the class: the weekday check box, the save and
    delete buttons of the event editor, "delete all events of the day",
    "begin range here", and the three mouse events of a drag;
  - `List.remove` and the stable `List.sort` are defined on sequences and
    proved to remove the first copy and to sort stably;
  - `fmtHM` and `fmtHHMM` are proved to read back as the minutes they show.

The exporter's `UUID.randomUUID()`, `LocalDateTime.now`, the system time zone
and the Spanish weekday names are fields of an `Env` parameter. The export
also returns the order in which it visited the dates of the event map, which
in Java is the `HashMap`'s iteration order. The weekday check box's schedule
picker (`mostrarSelectorHorario`) is a parameter too: the window the user
picked, or none when the picker was closed.

Where the code and its comments disagree, the model follows the code:

- `TimeRange.minutes` documents an end before the start as running into the
  next day. The code adds 24 hours with `LocalTime.plusHours`, which wraps
  to the same time of day. A window such as 23:30 to 00:30 therefore measures
  0 minutes, not 60. The exporter, by contrast, puts such a window's DTEND on
  the next day, so the calendar shows an hour that the summary counts as 0.
- `toggleOutsideSelection` un-pins the previous outside date only when that
  date is *not* in `forceOn`. Removing an absent element does nothing, so
  earlier pins stay selected.
- `copyFrom` clears each collection before adding the source's entries.
  Copying a state onto itself therefore empties its collections.
- `esc` escapes backslashes, semicolons and commas but not line feeds, so a
  description with a line break is cut into a second, malformed line once the
  line feeds become CRLF.

## Model

| member | source | states |
|---|---|---|
| `Program.ProgramState.constructor` | src/main/java/calendario/model/ProgramState.java:17-53 | a new state has no anchors, no filters, no overrides, no events and no pointer |
| `Program.StateData.HasRange` | src/main/java/calendario/model/ProgramState.java:96-98 | `hasRange`: both anchors are set; `MinDate`, `MaxDate` and `IsInsideRange` are present or true only when it holds |
| `Program.StateData.MinDate` | src/main/java/calendario/model/ProgramState.java:105-108 | present exactly when both anchors are set; it is one of the anchors and no later than either |
| `Program.StateData.MaxDate` | src/main/java/calendario/model/ProgramState.java:115-118 | present exactly when both anchors are set; it is one of the anchors and no earlier than either |
| `Program.StateData.IsInsideRange` | src/main/java/calendario/model/ProgramState.java:126-131 | true exactly when both anchors are set and d lies between them, whichever order they are in |
| `Program.StateData.IsSelected` | src/main/java/calendario/model/ProgramState.java:141-149 | forced-on dates are selected; otherwise forced-off and out-of-range dates are not; otherwise an empty weekday filter selects every date and a non-empty one selects its weekdays |
| `Program.ProgramState.SetRange` | src/main/java/calendario/model/ProgramState.java:157-160 | both anchors are stored as given and nothing else changes |
| `Program.ProgramState.CloseRangeAt` | src/main/java/calendario/model/ProgramState.java:168-180 | without a start, d becomes the start and the end is cleared; otherwise the range is closed, ordered, and spans exactly the old start and d; nothing else changes |
| `Program.ProgramState.AdjustRangeWith` | src/main/java/calendario/model/ProgramState.java:190-208 | ends in the same state as `closeRangeAt(d)`, whether or not the end was set |
| `Program.ProgramState.ToggleException` | src/main/java/calendario/model/ProgramState.java:217-225 | d's selection is negated, every other date keeps its selection, d is in exactly one override set and disjoint override sets stay disjoint |
| `Program.ProgramState.ToggleOutsideSelection` | src/main/java/calendario/model/ProgramState.java:233-249 | no change inside the range; outside it, d leaves `forceOn` (clearing a pointer at d) or joins it and becomes the pointer; earlier pins are kept |
| `Program.ProgramState.ForceOn` | src/main/java/calendario/model/ProgramState.java:256-259 | d is selected, it moves from `forceOff` to `forceOn`, and disjointness is preserved |
| `Program.ProgramState.ForceOff` | src/main/java/calendario/model/ProgramState.java:266-269 | d is not selected, it moves from `forceOn` to `forceOff`, and disjointness is preserved |
| `Program.ProgramState.CopyFrom` | src/main/java/calendario/model/ProgramState.java:276-298 | from another state, every field ends equal to the source's; onto itself, the anchors and the pointer stay and every collection is emptied |
| `TimeRanges.PlusHours` | src/main/java/calendario/model/TimeRange.java:24 | `LocalTime.plusHours` wraps around the day: the result differs from the time plus the hours by a whole number of days |
| `TimeRanges.TimeRange.Minutes` | src/main/java/calendario/model/TimeRange.java:21-28 | between 0 and 1439; for an end not before the start, the whole minutes between them; for an end before the start, 0 |
| `TimeRanges.MidnightCrossingMeasuresZero` | src/main/java/calendario/model/TimeRange.java:22-27 | 23:30 to 00:30 measures 0 minutes and 09:00 to 10:30 measures 90 |
| `TimeRanges.EqualEndsMeasureZero` | src/main/java/calendario/model/TimeRange.java:22-27 | a window whose ends coincide measures 0 |
| `Events.EventEqualityIsComponentwise` | src/main/java/calendario/model/CalendarEvent.java:12-18 | two events are equal exactly when all five components are equal, as for a Java record |
| `Calculator.Calculate` | src/main/java/calendario/service/ProgramCalculator.java:22-69 | nothing exactly when there is no state or no range; otherwise the summary of the range from its earlier to its later anchor, accumulated date by date |
| `Calculator.DayMinutes` | src/main/java/calendario/service/ProgramCalculator.java:40-44 | a date's minutes are its weekday window's length, or 0 without a window, and lie in 0..1439 |
| `Calculator.WeekOfProgram` | src/main/java/calendario/service/ProgramCalculator.java:78-81 | week 1 holds the seven days from the start, each later week the next seven |
| `Calculator.WeeksInRange` | src/main/java/calendario/service/ProgramCalculator.java:56-57 | the number of days in the inclusive range divided by 7, rounded up |
| `Calculator.Merge` | src/main/java/calendario/service/ProgramCalculator.java:49 | `merge` with `Integer::sum` adds v to k's entry, starting at v, and leaves the other keys alone |
| `Calculator.SelectedCountIsCardinality` | src/main/java/calendario/service/ProgramCalculator.java:35-38 | `selectedDays` is the number of selected dates in the range |
| `Calculator.SelectedCountBound` | src/main/java/calendario/service/ProgramCalculator.java:35-38 | `selectedDays` is at most the number of days in the range, with equality exactly when every day is selected |
| `Calculator.TotalsKeys` | src/main/java/calendario/service/ProgramCalculator.java:48-53 | a month or week is a key of its breakdown exactly when it holds a selected date |
| `Calculator.WeeksTouchedAreWeekKeys` | src/main/java/calendario/service/ProgramCalculator.java:51-53 | `weeksWithAny` holds exactly the keys of `minByWeek` |
| `Calculator.WeekKeysInRange` | src/main/java/calendario/service/ProgramCalculator.java:51-57 | every week key lies between 1 and `weeksInRange` |
| `Calculator.WeeksTouchedBound` | src/main/java/calendario/service/ProgramCalculator.java:51-57 | the touched weeks are no more than `weeksInRange` |
| `Calculator.EmptyPassTouchesNothing` | src/main/java/calendario/service/ProgramCalculator.java:36-52 | no week is touched exactly when no date is selected |
| `Calculator.WeeksWithTrainingBounds` | src/main/java/calendario/service/ProgramCalculator.java:56-65 | `weeksWithTraining` is at most `weeksInRange` and is 0 exactly when `selectedDays` is 0 |
| `Calculator.MergeAddsToSum` | src/main/java/calendario/service/ProgramCalculator.java:49 | merging v into a map adds v to the sum of its values |
| `Calculator.MinutesConserved` | src/main/java/calendario/service/ProgramCalculator.java:46-53 | each breakdown's values add up to `totalMinutes` |
| `Calculator.MinutesTotalBounds` | src/main/java/calendario/service/ProgramCalculator.java:40-46 | `totalMinutes` lies between 0 and 1439 times `selectedDays` |
| `Calculator.Pass` | src/main/java/calendario/service/ProgramCalculator.java:35-54 | the loop leaves `selectedDays`, `totalMinutes`, both breakdowns and `weeksWithAny` equal to their definitions over every date of the range |
| `Calculator.SummaryMinutesConsistent` | src/main/java/calendario/service/ProgramCalculator.java:46-53 | the summary's month and week breakdowns each add up to its `totalMinutes` |
| `Calculator.SummaryMinutesBounded` | src/main/java/calendario/service/ProgramCalculator.java:40-46 | the summary's `totalMinutes` lies between 0 and 1439 per selected day |
| `Calculator.SummarySelectedDays` | src/main/java/calendario/service/ProgramCalculator.java:25-38 | the summary's start is no later than its end and `selectedDays` is the number of selected dates between them |
| `Text.Decimal` | src/main/java/calendario/service/IcsExporter.java:122-124 | `%0Nd`: only digits, at least N of them, exactly N when the value fits, no leading zero when it does not, and they read back as the value |
| `Text.DecimalOfDigits` | src/main/java/calendario/service/IcsExporter.java:122-124 | a digit text is the zero-padded decimal of its own value at its own width |
| `Text.IntToString` | src/main/java/calendario/service/ProgramStorage.java:81 | `String.valueOf(int)`: the digits of the value, after a minus sign when it is negative, with no leading zero, and exactly "0" for 0 |
| `Text.Quot` | src/main/java/com/example/calendarioentrenamiento/CalendarioAnualDialog.java:784 | Java's `/`: the floor quotient for a non-negative dividend; for a negative one the quotient rounded toward zero, pinned by a <= q*b < a + b |
| `Text.Trim` | src/main/java/com/example/calendarioentrenamiento/CalendarioAnualDialog.java:982 | `String.trim`: the result is a slice of the text with only code points up to U+0020 outside it, it starts and ends with a code point above U+0020, and it is empty exactly when every code point is at most U+0020 (a U+2003 space is kept, as Java keeps it) |
| `Text.IsBlank` | src/main/java/calendario/service/IcsExporter.java:84-87 | `String.isBlank`: every character is white space, so the empty text is blank |
| `Calendar.WeekdayFromName` | src/main/java/calendario/service/ProgramStorage.java:156 | `DayOfWeek.valueOf`: the day whose enum name is the text, and nothing for any other text |
| `Calendar.ToCivilOfFromCivil` | src/main/java/calendario/service/ProgramStorage.java:149-150 | a valid year/month/day turns into a day number and back to itself |
| `Calendar.FromCivilInjective` | src/main/java/calendario/service/ProgramStorage.java:149-150 | two valid year/month/day triples with the same day number are the same |
| `Calendar.WindowConstants` | src/main/java/calendario/service/ProgramStorage.java:149-150 | the epoch offset and the first and last supported day numbers agree with the day counts of the Gregorian calendar |
| `Calendar.WeekdayOfNextDay` | src/main/java/calendario/model/ProgramState.java:148 | each next day has the next day of the week, Sunday followed by Monday |
| `Calendar.WeekdayOf` | src/main/java/calendario/model/ProgramState.java:148 | `getDayOfWeek` as the day number modulo 7 counted from Thursday; `WeekdayOfNextDay` and `EpochIsThursday` tie it to the calendar |
| `Calendar.EpochIsThursday` | src/main/java/calendario/model/ProgramState.java:148 | 1970-01-01 is a Thursday |
| `Calendar.NewYear2024IsMonday` | src/main/java/calendario/model/ProgramState.java:148 | 2024-01-01 is a Monday |
| `Calendar.FormatIsoDate` | src/main/java/calendario/service/ProgramStorage.java:116-117 | `LocalDate.toString`: ten characters with dashes at positions 4 and 7; the round trips below show it is the canonical text |
| `Calendar.ParseIsoDate` | src/main/java/calendario/service/ProgramStorage.java:149-150 | `LocalDate.parse`: accepts only ten-character `yyyy-MM-dd` text naming a day that exists, and fails otherwise |
| `Calendar.ParseFormatIsoDate` | src/main/java/calendario/service/ProgramStorage.java:116-117 | a date written as `yyyy-MM-dd` parses back to the same date |
| `Calendar.FormatParseIsoDate` | src/main/java/calendario/service/ProgramStorage.java:149-150 | any text that parses as a date is that date's canonical `yyyy-MM-dd` text |
| `Calendar.FormatIsoDateInjective` | src/main/java/calendario/service/ProgramStorage.java:128-131 | different dates have different ISO texts |
| `Calendar.TimeOfParts` | src/main/java/com/example/calendarioentrenamiento/CalendarioAnualDialog.java:988-989 | a time of day is rebuilt exactly from its hour, minute and second |
| `Calendar.FormatTime` | src/main/java/calendario/service/ProgramStorage.java:203-204 | `LocalTime.toString` for whole seconds: `HH:mm` when the seconds are zero and `HH:mm:ss` otherwise, and no other length |
| `Calendar.ParseTime` | src/main/java/calendario/service/ProgramStorage.java:209 | `LocalTime.parse` accepts only `HH:mm` and `HH:mm:ss` digit text; the parsed time has the written hour and minute, zero seconds for the short form and the written seconds for the long form |
| `Calendar.PartsOfTime` | src/main/java/calendario/service/ProgramStorage.java:209 | a time built from an hour, minute and second in range reads back as those three parts |
| `Calendar.ParseFormatTime` | src/main/java/calendario/service/ProgramStorage.java:203-209 | `LocalTime.toString` text parses back to the same time |
| `Storage.WeekdayNameCodec` | src/main/java/calendario/service/ProgramStorage.java:120 | every weekday name parses back to its weekday, and no two weekdays or accepted texts share a name |
| `Storage.IsoDateCodec` | src/main/java/calendario/service/ProgramStorage.java:128-131 | every date text parses back to its date, and no two dates or accepted texts share a text |
| `Storage.ToTimeRange` | src/main/java/calendario/service/ProgramStorage.java:208-210 | a stored window loads exactly when both of its times are present and parse, and then its start and end are the parsed times |
| `Storage.FromTimeRange` | src/main/java/calendario/service/ProgramStorage.java:201-206 | both times are written as `LocalTime.toString` text, and the stored window loads back through `ToTimeRange` as the same window |
| `Storage.ToEvent` | src/main/java/calendario/service/ProgramStorage.java:232-240 | present texts are kept and missing ones load as empty, a present window loads as its converted window and a missing one as 00:00-00:00, the reminder flag is kept, and the event fails to load exactly when a present window does not load |
| `Storage.FromEvent` | src/main/java/calendario/service/ProgramStorage.java:222-230 | title, description, location, window and check box are all stored, and the stored event loads back through `ToEvent` as the same event |
| `Storage.FromEvents` | src/main/java/calendario/service/ProgramStorage.java:135-136 | a date's events converted one by one, in order; `EventListCodec` shows the list loads back unchanged |
| `Storage.ToEvents` | src/main/java/calendario/service/ProgramStorage.java:185-186 | a date's list loads exactly when every one of its events loads, and then has the same length with each event loaded from the entry at its position |
| `Storage.StoreEventList` | src/main/java/calendario/service/ProgramStorage.java:135-136 | the inner loop builds exactly the converted list of the date's events |
| `Storage.EventListCodec` | src/main/java/calendario/service/ProgramStorage.java:134-137 | a saved event list loads back as the same list, order included |
| `Storage.FromSummary` | src/main/java/calendario/service/ProgramStorage.java:253-262 | the stored totals hold the summary's range as parseable ISO dates and its four counts unchanged |
| `Storage.WeekdayNamesUpToOrdered` | src/main/java/calendario/service/ProgramStorage.java:119-120 | the stored weekday list names exactly the chosen weekdays, each once, in Monday-first order |
| `Storage.WeekdayNamesListed` | src/main/java/calendario/service/ProgramStorage.java:119-120 | the stored weekday list names exactly the chosen weekdays, in Monday-first order |
| `Storage.StoredConverted` | src/main/java/calendario/service/ProgramStorage.java:122-125 | a map stored by key text loads back as itself when its keys and values round-trip |
| `Storage.StoreWeekdays` | src/main/java/calendario/service/ProgramStorage.java:119-120 | the loop produces the names of the chosen weekdays in enum order |
| `Storage.StoreSchedule` | src/main/java/calendario/service/ProgramStorage.java:122-125 | the loop stores each weekday window under the weekday's name and nothing else |
| `Storage.ListDates` | src/main/java/calendario/service/ProgramStorage.java:127-131 | the loop lists the text of every override date, each once |
| `Storage.StoreEvents` | src/main/java/calendario/service/ProgramStorage.java:133-138 | the loop stores each date's event list, in order, under the date's text and nothing else |
| `Storage.SaveDtoFrom` | src/main/java/calendario/service/ProgramStorage.java:114-144 | the saved record describes the state field by field, with totals exactly when a summary is given |
| `Storage.SaveJsonDto` | src/main/java/calendario/service/ProgramStorage.java:38-45 | the saved record describes the state, with totals exactly when a calculator is given and the state has a range |
| `Storage.LoadDate` | src/main/java/calendario/service/ProgramStorage.java:149-150 | an anchor loads when it is absent or parses; a malformed one is an error |
| `Storage.LoadDates` | src/main/java/calendario/service/ProgramStorage.java:171-179 | an override list loads when it is absent or every entry parses; one malformed entry is an error |
| `Storage.LoadEvents` | src/main/java/calendario/service/ProgramStorage.java:181-189 | the events load when they are absent or every key and every event converts; anything else is an error |
| `Storage.Load` | src/main/java/calendario/service/ProgramStorage.java:146-192 | a loaded state has no outside-click pointer |
| `Storage.LoadWeekdaysNamed` | src/main/java/calendario/service/ProgramStorage.java:152-159 | a weekday is loaded exactly when its name is in the list; unknown names are skipped |
| `Storage.LoadDatesListed` | src/main/java/calendario/service/ProgramStorage.java:171-179 | a date is loaded exactly when its text is in the list |
| `Storage.DatesRoundTrip` | src/main/java/calendario/service/ProgramStorage.java:127-131 | a saved override list loads back as the same set of dates |
| `Storage.DateRoundTrip` | src/main/java/calendario/service/ProgramStorage.java:116-117 | a saved anchor, present or absent, loads back as itself |
| `Storage.WeekdaysRoundTrip` | src/main/java/calendario/service/ProgramStorage.java:119-120 | the saved weekdays load back as the same set |
| `Storage.ScheduleRoundTrip` | src/main/java/calendario/service/ProgramStorage.java:122-125 | the saved schedule loads back as the same map |
| `Storage.EventsRoundTrip` | src/main/java/calendario/service/ProgramStorage.java:133-138 | the saved events load back as the same map of lists |
| `Storage.SaveLoadRoundTrip` | src/main/java/calendario/service/ProgramStorage.java:114-192 | loading a saved record gives back every field of the saved state; only the outside-click pointer, which is not saved, is lost |
| `Storage.LoadIgnoresTotals` | src/main/java/calendario/service/ProgramStorage.java:146-192 | the stored totals have no effect on what is loaded |
| `Storage.LoadSkipsUnknownWeekday` | src/main/java/calendario/service/ProgramStorage.java:154-158 | an unknown weekday name in the list changes nothing |
| `Storage.LoadSkipsBadScheduleEntry` | src/main/java/calendario/service/ProgramStorage.java:163-168 | a schedule entry with an unknown weekday or a window that does not load changes nothing |
| `Storage.LoadFailsOnMalformedOverride` | src/main/java/calendario/service/ProgramStorage.java:172-174 | one malformed forced-on date makes loading fail |
| `Storage.LoadFailsOnMalformedEvent` | src/main/java/calendario/service/ProgramStorage.java:183-188 | one event that does not convert makes loading fail |
| `Storage.ReadWeekdays` | src/main/java/calendario/service/ProgramStorage.java:152-159 | the loop loads the weekdays the list names |
| `Storage.ReadSchedule` | src/main/java/calendario/service/ProgramStorage.java:161-169 | the loop loads the schedule, skipping the entries that fail |
| `Storage.ReadDates` | src/main/java/calendario/service/ProgramStorage.java:171-179 | the loop loads the override dates or stops with an error at the first malformed one |
| `Storage.ReadEventList` | src/main/java/calendario/service/ProgramStorage.java:186 | the loop converts a date's events in order, or fails |
| `Storage.ReadEvents` | src/main/java/calendario/service/ProgramStorage.java:181-189 | the loop loads every date's list or fails |
| `Storage.ReadDto` | src/main/java/calendario/service/ProgramStorage.java:146-192 | the loops compute the loaded state or its error |
| `Storage.ToState` | src/main/java/calendario/service/ProgramStorage.java:56-60 | a fresh state object holds the loaded fields exactly when loading succeeds |
| `Storage.LinesSnoc` | src/main/java/calendario/service/ProgramStorage.java:81 | appending one more row appends its line |
| `Storage.CsvBody` | src/main/java/calendario/service/ProgramStorage.java:77-82 | the loop writes one line per selected date of the range, in date order |
| `Storage.SaveCsv` | src/main/java/calendario/service/ProgramStorage.java:70-91 | an error without a calculator, a state or a range; otherwise the CSV text of the summary's range and totals |
| `Storage.CsvRowsMatchSummary` | src/main/java/calendario/service/ProgramStorage.java:77-88 | the rows are the selected dates in ascending order, as many as `selectedDays`, and their minutes add up to `totalMinutes` |
| `Storage.CsvRowsComplete` | src/main/java/calendario/service/ProgramStorage.java:77-82 | every selected date of the range has a row |
| `Ics.ReplaceCharAppend` | src/main/java/calendario/service/IcsExporter.java:118 | `String.replace` of one character works piece by piece on a concatenation |
| `Ics.EscIsPerChar` | src/main/java/calendario/service/IcsExporter.java:116-119 | the three chained replacements escape each character independently: a backslash, a semicolon or a comma gets a backslash before it |
| `Ics.UnescapeEscChars` | src/main/java/calendario/service/IcsExporter.java:116-119 | reading back the per-character escape gives the original text |
| `Ics.Esc` | src/main/java/calendario/service/IcsExporter.java:116-119 | `esc` is the per-character escape of `EscIsPerChar`, and the escaped value reads back as the original text, so no information is lost |
| `Ics.Join` | src/main/java/calendario/service/IcsExporter.java:112-114 | the builder's text after a run of `vline` calls: each line followed by a line feed; `JoinAppend` shows runs concatenate |
| `Ics.JoinAppend` | src/main/java/calendario/service/IcsExporter.java:112-114 | writing two runs of lines gives the two texts one after the other |
| `Ics.Crlf` | src/main/java/calendario/service/IcsExporter.java:108 | every line feed of the finished text becomes CR LF; `CrlfNoBareLineFeed` shows no bare line feed is left |
| `Ics.CrlfNoBareLineFeed` | src/main/java/calendario/service/IcsExporter.java:108 | after the replacement every line feed is preceded by a carriage return |
| `Ics.ParseBasicDateOf` | src/main/java/calendario/service/IcsExporter.java:122-123 | the `yyyyMMdd` part reads back as the same date |
| `Ics.ParseBasicTimeOf` | src/main/java/calendario/service/IcsExporter.java:124 | the `HHmmss` part reads back as the same time |
| `Ics.FmtLocal` | src/main/java/calendario/service/IcsExporter.java:121-125 | a date-time of years 0000-9999 is written in 15 characters |
| `Ics.FmtUtc` | src/main/java/calendario/service/IcsExporter.java:127-131 | the UTC stamp is the local form followed by `Z` |
| `Ics.ParseLocalOf` | src/main/java/calendario/service/IcsExporter.java:121-125 | the `yyyyMMddTHHmmss` text reads back as the same date and time |
| `Ics.ParseFmtLocal` | src/main/java/calendario/service/IcsExporter.java:121-125 | every date-time of years 0000-9999 is written so that it reads back as itself |
| `Ics.DateDigitsAreLocalDate` | src/main/java/calendario/service/IcsExporter.java:59 | a UID's date prefix is the same eight digits as the DTSTART date |
| `Ics.ExportedSpan` | src/main/java/calendario/service/IcsExporter.java:53-56 | an exported event lasts less than a day and never runs backwards; it lasts `minutes()` whole minutes when the end is not before the start, and a positive time while `minutes()` is 0 when it crosses midnight |
| `Ics.TrainingVEventMarkers` | src/main/java/calendario/service/IcsExporter.java:61-67 | a training session opens and closes one VEVENT and no VALARM |
| `Ics.CustomVEventMarkers` | src/main/java/calendario/service/IcsExporter.java:81-102 | an event opens and closes one VEVENT and one VALARM exactly when it asks for a reminder |
| `Ics.AlarmMarkers` | src/main/java/calendario/service/IcsExporter.java:95-99 | the alarm opens and closes one VALARM and no VEVENT |
| `Ics.TrainingBlockMarkers` | src/main/java/calendario/service/IcsExporter.java:61-67 | every session block opens and closes one VEVENT and no VALARM |
| `Ics.CustomBlockMarkers` | src/main/java/calendario/service/IcsExporter.java:81-102 | every event block opens and closes one VEVENT, and one VALARM exactly when it asks for a reminder |
| `Ics.MapLinesSnoc` | src/main/java/calendario/service/IcsExporter.java:70-72 | taking one more date appends that date's event lines |
| `Ics.TrainingLinesCount` | src/main/java/calendario/service/IcsExporter.java:47-68 | a line that every session block holds once appears once per training date |
| `Ics.MapLinesCount` | src/main/java/calendario/service/IcsExporter.java:70-104 | a line counted per event adds up over every event of every date |
| `Ics.LayoutMarkers` | src/main/java/calendario/service/IcsExporter.java:38-106 | the document opens and closes as many VEVENTs as there are training dates and events, and as many VALARMs as reminders |
| `Ics.DocumentMarkers` | src/main/java/calendario/service/IcsExporter.java:28-106 | the exported document is balanced: one VEVENT per training date and per event, one VALARM per reminder |
| `Ics.TrainingDatesAre` | src/main/java/calendario/service/IcsExporter.java:47-51 | the training dates are exactly the range's dates that have a session, in ascending order |
| `Ics.SessionsAre` | src/main/java/calendario/service/IcsExporter.java:47-51 | a date has a session exactly when it is selected and its weekday has a window, and the session is that window |
| `Ics.FramedText` | src/main/java/calendario/service/IcsExporter.java:38-42 | the text starts with `BEGIN:VCALENDAR` and ends with `END:VCALENDAR`, each followed by CRLF |
| `Ics.LayoutFramed` | src/main/java/calendario/service/IcsExporter.java:106-108 | whatever the sessions and events, the CRLF text is framed by `BEGIN:VCALENDAR` and `END:VCALENDAR` |
| `Ics.IcsTextFrame` | src/main/java/calendario/service/IcsExporter.java:38-108 | the exported file begins with `BEGIN:VCALENDAR` and ends with `END:VCALENDAR`, CRLF-terminated |
| `Ics.AppendTraining` | src/main/java/calendario/service/IcsExporter.java:47-68 | the first loop appends the VEVENT of every training date of the range, in date order |
| `Ics.AppendDay` | src/main/java/calendario/service/IcsExporter.java:72-103 | the inner loop appends each of a date's events in list order |
| `Ics.AppendEvents` | src/main/java/calendario/service/IcsExporter.java:70-104 | the second loop visits every date of the map once and appends its events, date by date |
| `Ics.Export` | src/main/java/calendario/service/IcsExporter.java:28-110 | an error exactly when there is no state or no range; otherwise the header, the sessions, the events in the map's order and the footer, with CRLF line ends |
| `Dialog.RemoveFirst` | src/main/java/com/example/calendarioentrenamiento/CalendarioAnualDialog.java:1002 | `List.remove(Object)` takes one copy of the element out, and changes nothing when it is absent |
| `Dialog.FirstIndex` | src/main/java/com/example/calendarioentrenamiento/CalendarioAnualDialog.java:1002 | the position of the first copy of the element |
| `Dialog.RemoveFirstAt` | src/main/java/com/example/calendarioentrenamiento/CalendarioAnualDialog.java:1002 | what is removed is the first copy: the elements before and after it stay, in order |
| `Dialog.RemoveFirstSorted` | src/main/java/com/example/calendarioentrenamiento/CalendarioAnualDialog.java:1002 | removing an element keeps an ordered list ordered |
| `Dialog.DropSorted` | src/main/java/com/example/calendarioentrenamiento/CalendarioAnualDialog.java:1074 | dropping any position keeps an ordered list ordered |
| `Dialog.InsertPermutes` | src/main/java/com/example/calendarioentrenamiento/CalendarioAnualDialog.java:1004-1005 | one insertion step adds exactly the new element |
| `Dialog.InsertSorted` | src/main/java/com/example/calendarioentrenamiento/CalendarioAnualDialog.java:1004-1005 | one insertion step keeps the list ordered |
| `Dialog.InsertStable` | src/main/java/com/example/calendarioentrenamiento/CalendarioAnualDialog.java:1004-1005 | one insertion step adds the element after the others with its key and leaves every other group as it was |
| `Dialog.SortByIsStableSort` | src/main/java/com/example/calendarioentrenamiento/CalendarioAnualDialog.java:1005 | `List.sort` with the start-time comparator gives an ordered permutation that keeps events with equal start times in their order |
| `Dialog.EditedListIs` | src/main/java/com/example/calendarioentrenamiento/CalendarioAnualDialog.java:1000-1005 | after a save the list holds the new event, has lost one copy of the edited event and nothing else, is ordered by start time, and keeps equal start times in their old order with the new event last |
| `Dialog.EditList` | src/main/java/com/example/calendarioentrenamiento/CalendarioAnualDialog.java:1000-1005 | removing the edited event, appending the new one and sorting yield the edited list, which holds the new event and is ordered by start time (its full content and order `EditedListIs` states) |
| `Dialog.ClockOf` | src/main/java/com/example/calendarioentrenamiento/CalendarioAnualDialog.java:988-989 | `LocalTime.of(h, m)` reads back as hour h, minute m, second 0 |
| `Dialog.FormEvent` | src/main/java/com/example/calendarioentrenamiento/CalendarioAnualDialog.java:988-998 | the new event carries the trimmed texts, the spinners' hours and minutes to the whole minute, and the reminder check box's value |
| `Dialog.AfterDeleteIs` | src/main/java/com/example/calendarioentrenamiento/CalendarioAnualDialog.java:1073-1076 | deleting keeps every other date, leaves the date's list one copy of the event shorter, and drops the date exactly when nothing is left |
| `Dialog.UpdateKeepsLists` | src/main/java/com/example/calendarioentrenamiento/CalendarioAnualDialog.java:1000-1005 | storing an ordered list, or removing a date, keeps every list ordered and, for a non-empty list, none empty |
| `Dialog.AfterDeleteKeepsLists` | src/main/java/com/example/calendarioentrenamiento/CalendarioAnualDialog.java:1073-1076 | a deletion keeps every list ordered and none empty |
| `Dialog.UntickedWeekday` | src/main/java/com/example/calendarioentrenamiento/CalendarioAnualDialog.java:282-285 | after unticking a weekday none of its dates gets a session; one stays selected only when pinned, or in range, not forced off and with the filter left empty |
| `Dialog.TickedWeekday` | src/main/java/com/example/calendarioentrenamiento/CalendarioAnualDialog.java:276-277 | ticking a weekday selects its in-range dates that are not forced off; other weekdays are kept unless the filter was empty, when only pinned dates stay |
| `Dialog.PMin` | src/main/java/com/example/calendarioentrenamiento/CalendarioAnualDialog.java:552-554 | the earlier of the two preview ends |
| `Dialog.PMax` | src/main/java/com/example/calendarioentrenamiento/CalendarioAnualDialog.java:556-558 | the later of the two preview ends |
| `Dialog.DragRange` | src/main/java/com/example/calendarioentrenamiento/CalendarioAnualDialog.java:468-472 | the dragged range is ordered, spans exactly the two preview ends whatever the drag direction, and becomes the state's range |
| `Dialog.MapSundayZero` | src/main/java/com/example/calendarioentrenamiento/CalendarioAnualDialog.java:538-541 | a column 0..6 that is 0 exactly for Sunday and the ISO number for the other days |
| `Dialog.SundayZeroColumn` | src/main/java/com/example/calendarioentrenamiento/CalendarioAnualDialog.java:538-541 | the Sunday-first column of a day is its day count from 1970-01-01 plus 4, modulo 7 |
| `Dialog.Rem` | src/main/java/com/example/calendarioentrenamiento/CalendarioAnualDialog.java:785 | Java's `%`: the remainder that goes with the truncated quotient, never positive for a negative dividend |
| `Dialog.Pad2` | src/main/java/com/example/calendarioentrenamiento/CalendarioAnualDialog.java:794 | `%02d`: the digits of a non-negative value, at least two of them, exactly two below 100, with no leading zero from 100 on |
| `Dialog.FmtHHMM` | src/main/java/com/example/calendarioentrenamiento/CalendarioAnualDialog.java:791-795 | below 100 hours the text is five characters with a colon in the middle; from 100 hours on the hours have no leading zero |
| `Dialog.FmtHHMMRoundTrip` | src/main/java/com/example/calendarioentrenamiento/CalendarioAnualDialog.java:791-795 | the `HH:MM` text of a non-negative number of minutes reads back as that number |
| `Dialog.FmtHM` | src/main/java/com/example/calendarioentrenamiento/CalendarioAnualDialog.java:783-789 | under an hour the text is the minutes without leading zeros then ` m`; a whole number of hours is the hours then ` h`; otherwise the hours then ` h `, then the minutes then ` m`, each number without leading zeros |
| `Dialog.HMTextForms` | src/main/java/com/example/calendarioentrenamiento/CalendarioAnualDialog.java:786-788 | which of the three forms the text takes for a non-negative total, each number canonical and followed by its unit |
| `Dialog.HMTextParses` | src/main/java/com/example/calendarioentrenamiento/CalendarioAnualDialog.java:786-788 | each of the three forms `M m`, `H h` and `H h M m` reads back as its number of minutes |
| `Dialog.FmtHMRoundTrip` | src/main/java/com/example/calendarioentrenamiento/CalendarioAnualDialog.java:783-789 | the text of a non-negative number of minutes reads back as that number, so different totals never show the same |
| `Dialog.CalendarDialog.constructor` | src/main/java/com/example/calendarioentrenamiento/CalendarioAnualDialog.java:162-170 | a new dialog edits the given state, is not loading from a file, is not dragging and has no preview (the field initialisers at lines 98 and 128-138) |
| `Dialog.CalendarDialog.OnWeekdayToggled` | src/main/java/com/example/calendarioentrenamiento/CalendarioAnualDialog.java:275-288 | ticking adds the weekday and, when not loading from a file, stores the window the picker returns; unticking removes the weekday and its window; nothing else changes |
| `Dialog.CalendarDialog.SaveEvent` | src/main/java/com/example/calendarioentrenamiento/CalendarioAnualDialog.java:981-1009 | a blank title saves nothing; otherwise the date's list becomes the edited list, and every list stays ordered and non-empty |
| `Dialog.CalendarDialog.PutEdited` | src/main/java/com/example/calendarioentrenamiento/CalendarioAnualDialog.java:1000-1005 | `computeIfAbsent` then the list edits: the date's list becomes the edited list of what it held (empty when absent), ordered, with nothing else in the state changed |
| `Dialog.CalendarDialog.DeleteEvent` | src/main/java/com/example/calendarioentrenamiento/CalendarioAnualDialog.java:1069-1079 | without a selection nothing changes; otherwise one copy of the selected event leaves the date's list and an emptied date is dropped |
| `Dialog.CalendarDialog.DeleteAllEvents` | src/main/java/com/example/calendarioentrenamiento/CalendarioAnualDialog.java:636-641 | the date and all its events leave the map; nothing else changes |
| `Dialog.CalendarDialog.BeginRangeHere` | src/main/java/com/example/calendarioentrenamiento/CalendarioAnualDialog.java:585-591 | the date becomes the start, the end is cleared, so there is no range; nothing else changes |
| `Dialog.CalendarDialog.OnDragDetected` | src/main/java/com/example/calendarioentrenamiento/CalendarioAnualDialog.java:454-460 | a drag starts with both preview ends on the date |
| `Dialog.CalendarDialog.OnDragEntered` | src/main/java/com/example/calendarioentrenamiento/CalendarioAnualDialog.java:462-466 | during a drag the preview end moves to the date; otherwise nothing changes |
| `Dialog.CalendarDialog.OnMouseReleased` | src/main/java/com/example/calendarioentrenamiento/CalendarioAnualDialog.java:468-478 | ending a drag stores the ordered range spanned by the two preview ends and clears the preview; without a drag nothing changes |

## Left out

- JSON parsing and printing by Jackson, and reading and writing files: the
  model starts from and ends at the transfer records and the output text.
- The schedule picker window, alerts, rendering, styles, tooltips, context
  menus and the month grid: only the state changes the handlers make are
  modelled.
- `UUID.randomUUID()`, `LocalDateTime.now`, `ZoneId.systemDefault()` and the
  Spanish short weekday names: the exporter takes them from `Env`.
- The iteration order of `HashMap`, `HashSet` and `EnumSet`-backed sets: the
  model lets the loops pick any order and states what holds for every order.
- Java `int` overflow in the counters and sums: the model's integers are unbounded.
- `LocalDate` years outside 0000-9999 and fractional seconds of `LocalTime`.
- `null` strings: `esc(null)` giving `""`, a `null` title or description in
  the event editor, and `saveJson` with a `null` state or path, which throws.
- JSON `null` inside the transfer lists, which the transfer records cannot
  hold: a `null` entry of `trainingDays` (skipped by the loader), a `null`
  entry of `forceOn` or `forceOff` (`LocalDate.parse` throws and the load
  fails), and a `null` event list or `null` event of `events` (the loader
  throws and the load fails).
- Line folding of long content lines (section 3.1 of RFC 5545): the exporter
  does not fold either.
- Dialog.FmtHM: the form of the text is stated only for non-negative
  minutes; the text Java gives for a negative total is modelled but no property is stated about it.
- Dialog.FmtHHMM: the leading-zero and read-back properties are stated only for non-negative minutes, for the same reason.
