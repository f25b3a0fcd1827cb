/**
 * `ProgramStorage`: the conversion of a `ProgramState` to and from its JSON
 * transfer object (`SaveDto` and the DTOs nested in it), and the CSV text of
 * the selected days. The JSON text itself and the file writes are not part of
 * the model: a DTO field Jackson may leave null is an `Option`.
 */
module Storage {
  import opened Wrappers
  import opened Text
  import opened Calendar
  import opened TimeRanges
  import opened Events
  import opened Summaries
  import opened Program
  import opened Calculator

  datatype TimeRangeDto = TimeRangeDto(start: Option<string>, end: Option<string>)

  datatype EventDto = EventDto(
    title: Option<string>,
    description: Option<string>,
    location: Option<string>,
    time: Option<TimeRangeDto>,
    reminder: bool)

  datatype SummaryDto = SummaryDto(
    start: string,
    end: string,
    weeksInRange: int,
    weeksWithTraining: int,
    selectedDays: int,
    totalMinutes: int)

  datatype SaveDto = SaveDto(
    start: Option<string>,
    end: Option<string>,
    trainingDays: Option<seq<string>>,
    timeByDay: Option<map<string, Option<TimeRangeDto>>>,
    forceOn: Option<seq<string>>,
    forceOff: Option<seq<string>>,
    events: Option<map<string, seq<EventDto>>>,
    totals: Option<SummaryDto>)

  // ---------------------------------------------------------------------
  // Collections keyed by text, independent of what the text encodes

  /** The distinct elements of a list. */
  function Elements<T>(list: seq<T>): set<T> {
    set x | x in list
  }

  /** The image of a set. */
  function Images<T, U>(xs: set<T>, f: T -> U): set<U> {
    set x | x in xs :: f(x)
  }

  ghost predicate Injective<T(!new), U>(f: T -> U) {
    forall a, b :: f(a) == f(b) ==> a == b
  }

  /** A parser that accepts at most one text per value. */
  ghost predicate KeyInjective<K(!new)>(parse: string -> Option<K>) {
    forall x, y :: parse(x).Some? && parse(x) == parse(y) ==> x == y
  }

  /** The values of those texts that parse; the others are skipped. */
  function Parsed<K>(texts: set<string>, parse: string -> Option<K>): set<K> {
    set x | x in texts && parse(x).Some? :: parse(x).value
  }

  /** Every key of m parses and every value converts. */
  predicate AllConvert<K, W, V>(m: map<string, W>, parse: string -> Option<K>, conv: W -> Option<V>) {
    forall x :: x in m ==> parse(x).Some? && conv(m[x]).Some?
  }

  /** The entries of m whose key parses and whose value converts, both converted. */
  function Converted<K(==,!new), W, V>(m: map<string, W>, parse: string -> Option<K>, conv: W -> Option<V>): map<K, V>
    requires KeyInjective(parse)
  {
    map x | x in m && parse(x).Some? && conv(m[x]).Some? :: parse(x).value := conv(m[x]).value
  }

  /** `out` holds each entry of m under the text of its key, with its value converted. */
  predicate Stored<K, V, W(==)>(out: map<string, W>, m: map<K, V>, key: K -> string, conv: V -> W) {
    && out.Keys == Images(m.Keys, key)
    && forall k :: k in m ==> key(k) in out && out[key(k)] == conv(m[k])
  }

  lemma ElementsSnoc<T>(list: seq<T>, x: T)
    ensures Elements(list + [x]) == Elements(list) + {x}
  {
  }

  /** One more element of a set is done. */
  lemma SetStep<T>(xs: set<T>, pending: set<T>, x: T)
    requires x in pending && pending <= xs
    ensures xs - (pending - {x}) == (xs - pending) + {x} && x !in xs - pending
  {
  }

  lemma SetDone<T>(xs: set<T>)
    ensures xs - {} == xs
  {
  }

  /** One more entry of a map is done. */
  lemma MapStep<K, V>(m: map<K, V>, pending: set<K>, k: K)
    requires k in pending && pending <= m.Keys
    ensures (m - pending)[k := m[k]] == m - (pending - {k}) && k !in m - pending
  {
  }

  lemma MapDone<K, V>(m: map<K, V>)
    ensures m - {} == m
  {
  }

  lemma ImagesInsert<T, U>(xs: set<T>, x: T, f: T -> U)
    ensures Images(xs + {x}, f) == Images(xs, f) + {f(x)}
  {
  }

  lemma ParsedSnoc<K>(list: seq<string>, x: string, parse: string -> Option<K>)
    ensures Parsed(Elements(list + [x]), parse)
         == Parsed(Elements(list), parse) + (if parse(x).Some? then {parse(x).value} else {})
  {
    assert Elements(list + [x]) == Elements(list) + {x};
  }

  /** Parsing the texts of a set of values gives the set back. */
  lemma ParsedImages<K>(xs: set<K>, key: K -> string, parse: string -> Option<K>)
    requires forall k :: parse(key(k)) == Some(k)
    ensures Parsed(Images(xs, key), parse) == xs
  {
    forall k | k in Parsed(Images(xs, key), parse) ensures k in xs {
      var x :| x in Images(xs, key) && parse(x).Some? && parse(x).value == k;
      var j :| j in xs && key(j) == x;
      assert parse(key(j)) == Some(j);
    }
    forall k | k in xs ensures k in Parsed(Images(xs, key), parse) {
      assert key(k) in Images(xs, key) && parse(key(k)) == Some(k);
    }
  }

  /** Storing one more entry under a key text not used before. */
  lemma StoredInsert<K(!new), V, W>(out: map<string, W>, m: map<K, V>, k: K, v: V, key: K -> string, conv: V -> W)
    requires Injective(key) && Stored(out, m, key, conv) && k !in m
    ensures Stored(out[key(k) := conv(v)], m[k := v], key, conv)
  {
    ImagesInsert(m.Keys, k, key);
    assert m[k := v].Keys == m.Keys + {k};
    forall j | j in m ensures key(j) != key(k) {
      assert j != k;
    }
  }

  /** Converting one more entry, whose key no other entry shares. */
  lemma ConvertedInsert<K(!new), W, V>(m: map<string, W>, x: string, w: W, parse: string -> Option<K>, conv: W -> Option<V>)
    requires KeyInjective(parse) && x !in m
    ensures Converted(m[x := w], parse, conv)
         == if parse(x).Some? && conv(w).Some? then Converted(m, parse, conv)[parse(x).value := conv(w).value]
            else Converted(m, parse, conv)
  {
    if parse(x).Some? && conv(w).Some? {
      ConvertedInsertKept(m, x, w, parse, conv);
    } else {
      ConvertedInsertDropped(m, x, w, parse, conv);
    }
  }

  lemma ConvertedInsertKept<K(!new), W, V>(m: map<string, W>, x: string, w: W, parse: string -> Option<K>, conv: W -> Option<V>)
    requires KeyInjective(parse) && x !in m && parse(x).Some? && conv(w).Some?
    ensures Converted(m[x := w], parse, conv) == Converted(m, parse, conv)[parse(x).value := conv(w).value]
  {
    forall y | y in m && parse(y).Some? ensures parse(y) != parse(x) {
      assert y != x;
    }
  }

  lemma ConvertedInsertDropped<K(!new), W, V>(m: map<string, W>, x: string, w: W, parse: string -> Option<K>, conv: W -> Option<V>)
    requires KeyInjective(parse) && x !in m && !(parse(x).Some? && conv(w).Some?)
    ensures Converted(m[x := w], parse, conv) == Converted(m, parse, conv)
  {
  }

  /** Whatever is stored with an invertible key text and value conversion converts back to itself. */
  lemma StoredConverted<K(!new), V, W>(out: map<string, W>, m: map<K, V>, key: K -> string, conv: V -> W,
                                 parse: string -> Option<K>, unconv: W -> Option<V>)
    requires Stored(out, m, key, conv) && KeyInjective(parse)
    requires forall k :: parse(key(k)) == Some(k)
    requires forall v :: unconv(conv(v)) == Some(v)
    ensures AllConvert(out, parse, unconv)
    ensures Converted(out, parse, unconv) == m
  {
    forall x | x in out ensures parse(x).Some? && unconv(out[x]).Some? {
      var k :| k in m.Keys && key(k) == x;
      assert parse(key(k)) == Some(k) && unconv(conv(m[k])) == Some(m[k]);
    }
    var r := Converted(out, parse, unconv);
    forall k | k in m ensures k in r && r[k] == m[k] {
      assert parse(key(k)) == Some(k) && unconv(conv(m[k])) == Some(m[k]);
    }
    forall k | k in r ensures k in m {
      var x :| x in out && parse(x) == Some(k);
      var j :| j in m.Keys && key(j) == x;
      assert parse(key(j)) == Some(j);
    }
  }

  // ---------------------------------------------------------------------
  // The texts: weekday names and ISO dates

  /** `DayOfWeek.name` and `DayOfWeek.valueOf` are inverse. */
  lemma WeekdayNameCodec()
    ensures forall w :: WeekdayFromName(WeekdayName(w)) == Some(w)
    ensures Injective(WeekdayName)
    ensures KeyInjective(WeekdayFromName)
  {
    forall w ensures WeekdayFromName(WeekdayName(w)) == Some(w) {
      var r := WeekdayFromName(WeekdayName(w));
    }
  }

  /** `LocalDate.toString` and `LocalDate.parse` are inverse. */
  lemma IsoDateCodec()
    ensures forall d: Date :: ParseIsoDate(FormatIsoDate(d)) == Some(d)
    ensures Injective(FormatIsoDate)
    ensures KeyInjective(ParseIsoDate)
  {
    forall d: Date ensures ParseIsoDate(FormatIsoDate(d)) == Some(d) {
      ParseFormatIsoDate(d);
    }
    forall x: string, y: string | ParseIsoDate(x).Some? && ParseIsoDate(x) == ParseIsoDate(y) ensures x == y {
      FormatParseIsoDate(x);
      FormatParseIsoDate(y);
    }
  }

  // ---------------------------------------------------------------------
  // The nested DTOs

  /** `TimeRangeDto.from`: both times as `LocalTime.toString` text. */
  function FromTimeRange(tr: TimeRange): (dto: TimeRangeDto)
    ensures ToTimeRange(dto) == Some(tr)
  {
    ParseFormatTime(tr.start);
    ParseFormatTime(tr.end);
    TimeRangeDto(Some(FormatTime(tr.start)), Some(FormatTime(tr.end)))
  }

  /** `TimeRangeDto.toModel`: None where a time is missing or does not parse, as Java throws. */
  function ToTimeRange(dto: TimeRangeDto): (r: Option<TimeRange>)
    ensures r.Some? <==>
      dto.start.Some? && dto.end.Some? && ParseTime(dto.start.value).Some? && ParseTime(dto.end.value).Some?
    ensures r.Some? ==> r.value.start == ParseTime(dto.start.value).value && r.value.end == ParseTime(dto.end.value).value
  {
    if dto.start.None? || dto.end.None? then None
    else
      match (ParseTime(dto.start.value), ParseTime(dto.end.value))
      case (Some(a), Some(b)) => Some(TimeRange(a, b))
      case _ => None
  }

  /** `EventDto.from`: every field copied, the time as a `TimeRangeDto`. */
  function FromEvent(ev: CalendarEvent): (dto: EventDto)
    ensures ToEvent(dto) == Some(ev)
  {
    EventDto(Some(ev.title), Some(ev.description), Some(ev.location), Some(FromTimeRange(ev.time)), ev.reminder)
  }

  /**
   * `EventDto.toModel`: missing texts become "", a missing time becomes
   * 00:00-00:00, and a time that does not load makes the conversion fail.
   */
  function ToEvent(dto: EventDto): (r: Option<CalendarEvent>)
    ensures r.Some? <==> dto.time.None? || ToTimeRange(dto.time.value).Some?
    ensures r.Some? ==> r.value.reminder == dto.reminder
    ensures r.Some? && dto.title.None? ==> r.value.title == ""
    ensures r.Some? && dto.description.None? ==> r.value.description == ""
    ensures r.Some? && dto.location.None? ==> r.value.location == ""
    ensures r.Some? && dto.title.Some? ==> r.value.title == dto.title.value
    ensures r.Some? && dto.description.Some? ==> r.value.description == dto.description.value
    ensures r.Some? && dto.location.Some? ==> r.value.location == dto.location.value
    ensures r.Some? && dto.time.Some? ==> r.value.time == ToTimeRange(dto.time.value).value
    ensures dto.time.None? ==> r.Some? && r.value.time == TimeRange(0, 0)
  {
    var title := if dto.title.None? then "" else dto.title.value;
    var description := if dto.description.None? then "" else dto.description.value;
    var location := if dto.location.None? then "" else dto.location.value;
    if dto.time.None? then Some(CalendarEvent(title, description, location, TimeRange(0, 0), dto.reminder))
    else
      match ToTimeRange(dto.time.value)
      case None => None
      case Some(tr) => Some(CalendarEvent(title, description, location, tr, dto.reminder))
  }

  /** The stored list of a date's events, in order. */
  function FromEvents(evs: seq<CalendarEvent>): seq<EventDto> {
    seq(|evs|, i requires 0 <= i < |evs| => FromEvent(evs[i]))
  }

  /** A date's list loaded in order, or None when one of its events does not load. */
  function ToEvents(dtos: seq<EventDto>): (r: Option<seq<CalendarEvent>>)
    ensures r.Some? <==> forall i :: 0 <= i < |dtos| ==> ToEvent(dtos[i]).Some?
    ensures r.Some? ==> |r.value| == |dtos| && forall i :: 0 <= i < |dtos| ==> ToEvent(dtos[i]) == Some(r.value[i])
  {
    if forall i :: 0 <= i < |dtos| ==> ToEvent(dtos[i]).Some? then
      Some(seq(|dtos|, i requires 0 <= i < |dtos| => ToEvent(dtos[i]).value))
    else None
  }

  /** Stored event lists load back as themselves, order included. */
  lemma EventListCodec()
    ensures forall evs :: ToEvents(FromEvents(evs)) == Some(evs)
  {
    forall evs ensures ToEvents(FromEvents(evs)) == Some(evs) {
      EventListLoads(evs, FromEvents(evs));
    }
  }

  lemma EventListLoads(evs: seq<CalendarEvent>, dtos: seq<EventDto>)
    requires |dtos| == |evs| && forall i :: 0 <= i < |evs| ==> dtos[i] == FromEvent(evs[i])
    ensures ToEvents(dtos) == Some(evs)
  {
    assert forall i :: 0 <= i < |evs| ==> ToEvent(dtos[i]) == Some(evs[i]);
    assert seq(|dtos|, i requires 0 <= i < |dtos| => ToEvent(dtos[i]).value) == evs;
  }

  /** `SummaryDto.from`: the range as ISO text and the four counts copied. */
  function FromSummary(s: ProgramSummary): (dto: SummaryDto)
    ensures ParseIsoDate(dto.start) == Some(s.start) && ParseIsoDate(dto.end) == Some(s.end)
    ensures dto.weeksInRange == s.weeksInRange && dto.weeksWithTraining == s.weeksWithTraining
    ensures dto.selectedDays == s.selectedDays && dto.totalMinutes == s.totalMinutes
  {
    ParseFormatIsoDate(s.start);
    ParseFormatIsoDate(s.end);
    SummaryDto(FormatIsoDate(s.start), FormatIsoDate(s.end),
      s.weeksInRange, s.weeksWithTraining, s.selectedDays, s.totalMinutes)
  }

  // ---------------------------------------------------------------------
  // `SaveDto.from`

  /** `EnumSet` iteration: the names of the weekdays in `days` numbered 1..n, in that order. */
  function WeekdayNamesUpTo(days: set<Weekday>, n: nat): seq<string>
    requires n <= 7
  {
    if n == 0 then []
    else
      var w := WeekdayOfValue(n);
      WeekdayNamesUpTo(days, n - 1) + (if w in days then [WeekdayName(w)] else [])
  }

  /** The stored weekday list: each weekday of `days` by name, Monday first. */
  function WeekdayNames(days: set<Weekday>): seq<string> {
    WeekdayNamesUpTo(days, 7)
  }

  /** The weekdays of the set numbered at most n. */
  function DaysUpTo(days: set<Weekday>, n: int): set<Weekday> {
    set w | w in days && WeekdayValue(w) <= n
  }

  /** The list names the weekdays of the set numbered at most n, in ascending order. */
  lemma {:induction false} WeekdayNamesUpToOrdered(days: set<Weekday>, n: nat)
    requires n <= 7
    ensures Elements(WeekdayNamesUpTo(days, n)) == Images(DaysUpTo(days, n), WeekdayName)
    ensures forall i :: 0 <= i < |WeekdayNamesUpTo(days, n)| ==>
      WeekdayFromName(WeekdayNamesUpTo(days, n)[i]).Some?
      && WeekdayValue(WeekdayFromName(WeekdayNamesUpTo(days, n)[i]).value) <= n
    ensures forall i, j :: 0 <= i < j < |WeekdayNamesUpTo(days, n)| ==>
      WeekdayValue(WeekdayFromName(WeekdayNamesUpTo(days, n)[i]).value)
      < WeekdayValue(WeekdayFromName(WeekdayNamesUpTo(days, n)[j]).value)
  {
    WeekdayNameCodec();
    if n > 0 {
      WeekdayNamesUpToOrdered(days, n - 1);
      var w := WeekdayOfValue(n);
      assert WeekdayValue(w) == n;
      var before := DaysUpTo(days, n - 1);
      var upto := DaysUpTo(days, n);
      if w in days {
        assert upto == before + {w};
        ImagesInsert(before, w, WeekdayName);
        assert Elements(WeekdayNamesUpTo(days, n)) == Elements(WeekdayNamesUpTo(days, n - 1)) + {WeekdayName(w)};
      } else {
        assert upto == before;
        assert WeekdayNamesUpTo(days, n) == WeekdayNamesUpTo(days, n - 1);
      }
    }
  }

  /** The stored weekday list holds the name of each training day, Monday first. */
  lemma WeekdayNamesListed(days: set<Weekday>)
    ensures Elements(WeekdayNames(days)) == Images(days, WeekdayName)
    ensures forall i :: 0 <= i < |WeekdayNames(days)| ==> WeekdayFromName(WeekdayNames(days)[i]).Some?
    ensures forall i, j :: 0 <= i < j < |WeekdayNames(days)| ==>
      WeekdayValue(WeekdayFromName(WeekdayNames(days)[i]).value)
      < WeekdayValue(WeekdayFromName(WeekdayNames(days)[j]).value)
  {
    WeekdayNamesUpToOrdered(days, 7);
    assert DaysUpTo(days, 7) == days;
  }

  /** The stored form of a schedule entry. */
  function StoredRange(tr: TimeRange): Option<TimeRangeDto> {
    Some(FromTimeRange(tr))
  }

  /**
   * What `SaveDto.from(state, summary)` produces: the anchors as ISO text or
   * null, the weekdays by name in enum order, the schedule by weekday name,
   * each override set as a list of its dates' text in some order, the events
   * by date text with each list in order, and the totals exactly when a
   * summary is given.
   */
  predicate Describes(dto: SaveDto, data: StateData, summary: Option<ProgramSummary>) {
    && dto.start == MapOption(data.start, FormatIsoDate)
    && dto.end == MapOption(data.end, FormatIsoDate)
    && dto.trainingDays == Some(WeekdayNames(data.trainingDays))
    && dto.timeByDay.Some? && Stored(dto.timeByDay.value, data.timeByDay, WeekdayName, StoredRange)
    && dto.forceOn.Some? && Elements(dto.forceOn.value) == Images(data.forceOn, FormatIsoDate)
    && dto.forceOff.Some? && Elements(dto.forceOff.value) == Images(data.forceOff, FormatIsoDate)
    && dto.events.Some? && Stored(dto.events.value, data.events, FormatIsoDate, FromEvents)
    && dto.totals == MapOption(summary, FromSummary)
  }

  /** The `trainingDays` loop over the `EnumSet`, Monday first. */
  method StoreWeekdays(days: set<Weekday>) returns (names: seq<string>)
    ensures names == WeekdayNames(days)
  {
    names := [];
    for n := 1 to 8
      invariant names == WeekdayNamesUpTo(days, n - 1)
    {
      var w := WeekdayOfValue(n);
      if w in days {
        names := names + [WeekdayName(w)];
      }
    }
  }

  /** The `timeByDay` loop: each entry put under its weekday's name. */
  method StoreSchedule(schedule: map<Weekday, TimeRange>) returns (tbd: map<string, Option<TimeRangeDto>>)
    ensures Stored(tbd, schedule, WeekdayName, StoredRange)
  {
    WeekdayNameCodec();
    tbd := map[];
    var pending := schedule.Keys;
    while pending != {}
      invariant pending <= schedule.Keys
      invariant Stored(tbd, schedule - pending, WeekdayName, StoredRange)
      decreases pending
    {
      var w :| w in pending;
      MapStep(schedule, pending, w);
      StoredInsert(tbd, schedule - pending, w, schedule[w], WeekdayName, StoredRange);
      tbd := tbd[WeekdayName(w) := StoredRange(schedule[w])];
      pending := pending - {w};
    }
    MapDone(schedule);
  }

  /** The `forceOn`/`forceOff` loops: the text of each date, in the set's iteration order. */
  method ListDates(dates: set<Date>) returns (list: seq<string>)
    ensures Elements(list) == Images(dates, FormatIsoDate)
    ensures |list| == |dates|
  {
    list := [];
    var pending := dates;
    while pending != {}
      invariant pending <= dates
      invariant Elements(list) == Images(dates - pending, FormatIsoDate)
      invariant |list| == |dates - pending|
      decreases pending
    {
      var d :| d in pending;
      var text := FormatIsoDate(d);
      ElementsSnoc(list, text);
      SetStep(dates, pending, d);
      ImagesInsert(dates - pending, d, FormatIsoDate);
      list := list + [text];
      pending := pending - {d};
    }
    SetDone(dates);
  }

  /** The `events` loop: each date's list converted in order and put under the date's text. */
  method StoreEvents(events: map<Date, seq<CalendarEvent>>) returns (stored: map<string, seq<EventDto>>)
    ensures Stored(stored, events, FormatIsoDate, FromEvents)
  {
    IsoDateCodec();
    stored := map[];
    var pending := events.Keys;
    while pending != {}
      invariant pending <= events.Keys
      invariant Stored(stored, events - pending, FormatIsoDate, FromEvents)
      decreases pending
    {
      var d :| d in pending;
      var evs := events[d];
      var list := StoreEventList(evs);
      MapStep(events, pending, d);
      StoredInsert(stored, events - pending, d, evs, FormatIsoDate, FromEvents);
      stored := stored[FormatIsoDate(d) := list];
      pending := pending - {d};
    }
    MapDone(events);
  }

  /** The inner loop of the `events` loop: one date's list converted in order. */
  method StoreEventList(evs: seq<CalendarEvent>) returns (list: seq<EventDto>)
    ensures list == FromEvents(evs)
  {
    list := [];
    for i := 0 to |evs|
      invariant |list| == i && forall k :: 0 <= k < i ==> list[k] == FromEvent(evs[k])
    {
      list := list + [FromEvent(evs[i])];
    }
  }

  /** `SaveDto.from`. */
  method SaveDtoFrom(state: ProgramState, summary: Option<ProgramSummary>) returns (dto: SaveDto)
    ensures Describes(dto, state.Data(), summary)
  {
    var data := state.Data();
    var start := MapOption(data.start, FormatIsoDate);
    var end := MapOption(data.end, FormatIsoDate);
    var trainingDays := StoreWeekdays(data.trainingDays);
    var timeByDay := StoreSchedule(data.timeByDay);
    var forceOn := ListDates(data.forceOn);
    var forceOff := ListDates(data.forceOff);
    var events := StoreEvents(data.events);
    var totals := MapOption(summary, FromSummary);
    dto := SaveDto(start, end, Some(trainingDays), Some(timeByDay), Some(forceOn), Some(forceOff),
                   Some(events), totals);
  }

  /**
   * `saveJson` up to the Jackson encoding: the totals are those of
   * `calculate` when a calculator is given, and absent otherwise or when the
   * state has no range.
   */
  method SaveJsonDto(state: ProgramState, hasCalculator: bool) returns (dto: SaveDto)
    ensures dto.totals.Some? <==> hasCalculator && state.HasRange()
    ensures Describes(dto, state.Data(),
      if hasCalculator && state.HasRange() then Some(Summary(state.Data())) else None)
  {
    var summary: Option<ProgramSummary> := None;
    if hasCalculator {
      summary := Calculate(state);
    }
    dto := SaveDtoFrom(state, summary);
  }

  // ---------------------------------------------------------------------
  // `SaveDto.toState`

  /** An optional date: absent stays absent, present must parse. */
  function LoadDate(text: Option<string>): (r: Result<Option<Date>>)
    ensures r.Ok? <==> text.None? || ParseIsoDate(text.value).Some?
  {
    if text.None? then Ok(None)
    else if ParseIsoDate(text.value).None? then Err("malformed date")
    else Ok(ParseIsoDate(text.value))
  }

  /** The weekdays named in a list; unknown names are skipped. */
  function LoadWeekdays(list: seq<string>): set<Weekday> {
    Parsed(Elements(list), WeekdayFromName)
  }

  /** A schedule entry's range; a null entry or one that does not load gives None. */
  function LoadRange(v: Option<TimeRangeDto>): Option<TimeRange> {
    if v.None? then None else ToTimeRange(v.value)
  }

  /** The schedule; entries with an unknown weekday name or a range that does not load are skipped. */
  function LoadSchedule(tbd: map<string, Option<TimeRangeDto>>): map<Weekday, TimeRange> {
    WeekdayNameCodec();
    Converted(tbd, WeekdayFromName, LoadRange)
  }

  /** An optional list of dates: absent is empty, and every entry must parse. */
  function LoadDates(list: Option<seq<string>>): (r: Result<set<Date>>)
    ensures r.Ok? <==> list.None? || forall x :: x in list.value ==> ParseIsoDate(x).Some?
  {
    if list.None? then Ok({})
    else if forall x :: x in list.value ==> ParseIsoDate(x).Some? then Ok(Parsed(Elements(list.value), ParseIsoDate))
    else Err("malformed date")
  }

  /** The events: every key must parse as a date and every event must load. */
  function LoadEvents(evs: Option<map<string, seq<EventDto>>>): (r: Result<map<Date, seq<CalendarEvent>>>)
    ensures r.Ok? <==> evs.None? || AllConvert(evs.value, ParseIsoDate, ToEvents)
  {
    if evs.None? then Ok(map[])
    else if AllConvert(evs.value, ParseIsoDate, ToEvents) then
      IsoDateCodec();
      Ok(Converted(evs.value, ParseIsoDate, ToEvents))
    else Err("malformed event")
  }

  /**
   * `SaveDto.toState`: the state a DTO loads as. Malformed dates and event
   * times make the whole load fail; unknown weekday names and unloadable
   * schedule entries are skipped; the totals are ignored and the outside-click
   * pointer starts unset.
   */
  function Load(dto: SaveDto): (r: Result<StateData>)
    ensures r.Ok? ==> r.value.lastOutsideClick == None
  {
    var start :- LoadDate(dto.start);
    var end :- LoadDate(dto.end);
    var days := if dto.trainingDays.None? then {} else LoadWeekdays(dto.trainingDays.value);
    var schedule := if dto.timeByDay.None? then map[] else LoadSchedule(dto.timeByDay.value);
    var on :- LoadDates(dto.forceOn);
    var off :- LoadDates(dto.forceOff);
    var events :- LoadEvents(dto.events);
    Ok(StateData(start, end, days, schedule, on, off, events, None))
  }

  /** The loaded training days are exactly the weekdays the list names. */
  lemma LoadWeekdaysNamed(list: seq<string>)
    ensures forall w :: w in LoadWeekdays(list) <==> WeekdayName(w) in list
  {
    WeekdayNameCodec();
    forall w ensures w in LoadWeekdays(list) <==> WeekdayName(w) in list {
      if w in LoadWeekdays(list) {
        var x :| x in Elements(list) && WeekdayFromName(x) == Some(w);
      }
      if WeekdayName(w) in list {
        assert WeekdayName(w) in Elements(list);
      }
    }
  }

  /** The loaded overrides are exactly the dates whose text the list holds. */
  lemma LoadDatesListed(list: seq<string>)
    requires LoadDates(Some(list)).Ok?
    ensures forall d: Date :: d in LoadDates(Some(list)).value <==> FormatIsoDate(d) in list
  {
    IsoDateCodec();
    forall d: Date ensures d in LoadDates(Some(list)).value <==> FormatIsoDate(d) in list {
      if d in LoadDates(Some(list)).value {
        var x :| x in Elements(list) && ParseIsoDate(x) == Some(d);
        FormatParseIsoDate(x);
      }
      if FormatIsoDate(d) in list {
        assert FormatIsoDate(d) in Elements(list);
      }
    }
  }

  /** A stored override set loads back as itself. */
  lemma DatesRoundTrip(list: seq<string>, dates: set<Date>)
    requires Elements(list) == Images(dates, FormatIsoDate)
    ensures LoadDates(Some(list)) == Ok(dates)
  {
    IsoDateCodec();
    forall x | x in list ensures ParseIsoDate(x).Some? {
      assert x in Elements(list);
    }
    ParsedImages(dates, FormatIsoDate, ParseIsoDate);
  }

  /** A stored anchor loads back as itself. */
  lemma DateRoundTrip(d: Option<Date>)
    ensures LoadDate(MapOption(d, FormatIsoDate)) == Ok(d)
  {
    if d.Some? {
      ParseFormatIsoDate(d.value);
    }
  }

  /** The stored weekday names load back as the training days. */
  lemma WeekdaysRoundTrip(days: set<Weekday>)
    ensures LoadWeekdays(WeekdayNames(days)) == days
  {
    WeekdayNameCodec();
    WeekdayNamesListed(days);
    ParsedImages(days, WeekdayName, WeekdayFromName);
  }

  /** A stored schedule loads back as itself. */
  lemma ScheduleRoundTrip(tbd: map<string, Option<TimeRangeDto>>, schedule: map<Weekday, TimeRange>)
    requires Stored(tbd, schedule, WeekdayName, StoredRange)
    ensures LoadSchedule(tbd) == schedule
  {
    WeekdayNameCodec();
    assert forall tr :: LoadRange(StoredRange(tr)) == Some(tr);
    StoredConverted(tbd, schedule, WeekdayName, StoredRange, WeekdayFromName, LoadRange);
  }

  /** Stored events load back as themselves, each list in order. */
  lemma EventsRoundTrip(stored: map<string, seq<EventDto>>, events: map<Date, seq<CalendarEvent>>)
    requires Stored(stored, events, FormatIsoDate, FromEvents)
    ensures LoadEvents(Some(stored)) == Ok(events)
  {
    IsoDateCodec();
    EventListCodec();
    StoredConverted(stored, events, FormatIsoDate, FromEvents, ParseIsoDate, ToEvents);
  }

  /** `toState` assembles the state from the fields it loaded. */
  lemma LoadOfParts(dto: SaveDto, start: Option<Date>, end: Option<Date>, days: set<Weekday>,
                    schedule: map<Weekday, TimeRange>, on: set<Date>, off: set<Date>,
                    events: map<Date, seq<CalendarEvent>>)
    requires LoadDate(dto.start) == Ok(start) && LoadDate(dto.end) == Ok(end)
    requires days == (if dto.trainingDays.None? then {} else LoadWeekdays(dto.trainingDays.value))
    requires schedule == (if dto.timeByDay.None? then map[] else LoadSchedule(dto.timeByDay.value))
    requires LoadDates(dto.forceOn) == Ok(on) && LoadDates(dto.forceOff) == Ok(off)
    requires LoadEvents(dto.events) == Ok(events)
    ensures Load(dto) == Ok(StateData(start, end, days, schedule, on, off, events, None))
  {
  }

  /**
   * The round trip: whatever `SaveDto.from` stores loads back as the state it
   * came from, every field but the pointer, which is not saved.
   */
  lemma SaveLoadRoundTrip(dto: SaveDto, data: StateData, summary: Option<ProgramSummary>)
    requires Describes(dto, data, summary)
    ensures Load(dto) == Ok(data.(lastOutsideClick := None))
  {
    DateRoundTrip(data.start);
    DateRoundTrip(data.end);
    WeekdaysRoundTrip(data.trainingDays);
    ScheduleRoundTrip(dto.timeByDay.value, data.timeByDay);
    DatesRoundTrip(dto.forceOn.value, data.forceOn);
    DatesRoundTrip(dto.forceOff.value, data.forceOff);
    EventsRoundTrip(dto.events.value, data.events);
    LoadOfParts(dto, data.start, data.end, data.trainingDays, data.timeByDay, data.forceOn, data.forceOff, data.events);
  }

  /** `toState` ignores the totals. */
  lemma LoadIgnoresTotals(dto: SaveDto, totals: Option<SummaryDto>)
    ensures Load(dto.(totals := totals)) == Load(dto)
  {
  }

  /** An unknown weekday name in `trainingDays` is skipped rather than failing the load. */
  lemma LoadSkipsUnknownWeekday(dto: SaveDto, x: string)
    requires dto.trainingDays.Some? && WeekdayFromName(x).None?
    ensures Load(dto.(trainingDays := Some(dto.trainingDays.value + [x]))) == Load(dto)
  {
    ParsedSnoc(dto.trainingDays.value, x, WeekdayFromName);
    assert LoadWeekdays(dto.trainingDays.value + [x]) == LoadWeekdays(dto.trainingDays.value);
  }

  /** A schedule entry under an unknown weekday name, or with a range that does not load, is skipped. */
  lemma LoadSkipsBadScheduleEntry(dto: SaveDto, x: string, v: Option<TimeRangeDto>)
    requires dto.timeByDay.Some? && x !in dto.timeByDay.value
    requires WeekdayFromName(x).None? || LoadRange(v).None?
    ensures Load(dto.(timeByDay := Some(dto.timeByDay.value[x := v]))) == Load(dto)
  {
    WeekdayNameCodec();
    ConvertedInsert(dto.timeByDay.value, x, v, WeekdayFromName, LoadRange);
  }

  /** One malformed date among the overrides fails the whole load. */
  lemma LoadFailsOnMalformedOverride(dto: SaveDto, x: string)
    requires dto.forceOn.Some? && x in dto.forceOn.value && ParseIsoDate(x).None?
    ensures Load(dto).Err?
  {
  }

  /** One event whose time does not load fails the whole load. */
  lemma LoadFailsOnMalformedEvent(dto: SaveDto, key: string, i: int)
    requires dto.events.Some? && key in dto.events.value
    requires 0 <= i < |dto.events.value[key]| && ToEvent(dto.events.value[key][i]).None?
    ensures Load(dto).Err?
  {
    assert ToEvents(dto.events.value[key]).None?;
  }

  /** The `trainingDays` loop: each name that `DayOfWeek.valueOf` accepts is added. */
  method ReadWeekdays(list: seq<string>) returns (days: set<Weekday>)
    ensures days == LoadWeekdays(list)
  {
    days := {};
    for i := 0 to |list|
      invariant days == LoadWeekdays(list[..i])
    {
      var w := WeekdayFromName(list[i]);
      ParsedSnoc(list[..i], list[i], WeekdayFromName);
      assert list[..i + 1] == list[..i] + [list[i]];
      if w.Some? {
        days := days + {w.value};
      }
    }
    assert list[..|list|] == list;
  }

  /** The `timeByDay` loop: each entry that loads is put, the others are skipped. */
  method ReadSchedule(tbd: map<string, Option<TimeRangeDto>>) returns (schedule: map<Weekday, TimeRange>)
    ensures schedule == LoadSchedule(tbd)
  {
    WeekdayNameCodec();
    schedule := map[];
    var pending := tbd.Keys;
    while pending != {}
      invariant pending <= tbd.Keys
      invariant schedule == Converted(tbd - pending, WeekdayFromName, LoadRange)
      decreases pending
    {
      var x :| x in pending;
      var w := WeekdayFromName(x);
      var range := LoadRange(tbd[x]);
      MapStep(tbd, pending, x);
      ConvertedInsert(tbd - pending, x, tbd[x], WeekdayFromName, LoadRange);
      if w.Some? && range.Some? {
        schedule := schedule[w.value := range.value];
      }
      pending := pending - {x};
    }
    MapDone(tbd);
  }

  /** The `forceOn`/`forceOff` loops: every entry must parse. */
  method ReadDates(list: seq<string>) returns (r: Result<set<Date>>)
    ensures r == LoadDates(Some(list))
  {
    var dates: set<Date> := {};
    for i := 0 to |list|
      invariant forall j :: 0 <= j < i ==> ParseIsoDate(list[j]).Some?
      invariant dates == Parsed(Elements(list[..i]), ParseIsoDate)
    {
      var d := ParseIsoDate(list[i]);
      if d.None? {
        return Err("malformed date");
      }
      ParsedSnoc(list[..i], list[i], ParseIsoDate);
      assert list[..i + 1] == list[..i] + [list[i]];
      dates := dates + {d.value};
    }
    assert list[..|list|] == list;
    return Ok(dates);
  }

  /** The inner events loop: each event of a date's list loaded in order. */
  method ReadEventList(dtos: seq<EventDto>) returns (r: Option<seq<CalendarEvent>>)
    ensures r == ToEvents(dtos)
  {
    var list: seq<CalendarEvent> := [];
    for i := 0 to |dtos|
      invariant |list| == i
      invariant forall j :: 0 <= j < i ==> ToEvent(dtos[j]) == Some(list[j])
    {
      var ev := ToEvent(dtos[i]);
      if ev.None? {
        return None;
      }
      list := list + [ev.value];
    }
    assert list == seq(|dtos|, i requires 0 <= i < |dtos| => ToEvent(dtos[i]).value);
    return Some(list);
  }

  /** The events loop: each key must parse and each of its events must load. */
  method ReadEvents(evs: map<string, seq<EventDto>>) returns (r: Result<map<Date, seq<CalendarEvent>>>)
    ensures r == LoadEvents(Some(evs))
  {
    IsoDateCodec();
    var events: map<Date, seq<CalendarEvent>> := map[];
    var pending := evs.Keys;
    while pending != {}
      invariant pending <= evs.Keys
      invariant AllConvert(evs - pending, ParseIsoDate, ToEvents)
      invariant events == Converted(evs - pending, ParseIsoDate, ToEvents)
      decreases pending
    {
      var x :| x in pending;
      var date := ParseIsoDate(x);
      if date.None? {
        assert !AllConvert(evs, ParseIsoDate, ToEvents);
        return Err("malformed event");
      }
      var list := ReadEventList(evs[x]);
      if list.None? {
        assert !AllConvert(evs, ParseIsoDate, ToEvents);
        return Err("malformed event");
      }
      MapStep(evs, pending, x);
      ConvertedInsert(evs - pending, x, evs[x], ParseIsoDate, ToEvents);
      events := events[date.value := list.value];
      pending := pending - {x};
    }
    MapDone(evs);
    return Ok(events);
  }

  /** The reading part of `SaveDto.toState`, field by field, in the order of the source. */
  method ReadDto(dto: SaveDto) returns (r: Result<StateData>)
    ensures r == Load(dto)
  {
    var start := LoadDate(dto.start);
    if start.Err? { return Err(start.message); }
    var end := LoadDate(dto.end);
    if end.Err? { return Err(end.message); }

    var days: set<Weekday> := {};
    if dto.trainingDays.Some? {
      days := ReadWeekdays(dto.trainingDays.value);
    }
    var schedule: map<Weekday, TimeRange> := map[];
    if dto.timeByDay.Some? {
      schedule := ReadSchedule(dto.timeByDay.value);
    }
    var on: set<Date> := {};
    if dto.forceOn.Some? {
      var read := ReadDates(dto.forceOn.value);
      if read.Err? { return Err(read.message); }
      on := read.value;
    }
    var off: set<Date> := {};
    if dto.forceOff.Some? {
      var read := ReadDates(dto.forceOff.value);
      if read.Err? { return Err(read.message); }
      off := read.value;
    }
    var events: map<Date, seq<CalendarEvent>> := map[];
    if dto.events.Some? {
      var read := ReadEvents(dto.events.value);
      if read.Err? { return Err(read.message); }
      events := read.value;
    }

    LoadOfParts(dto, start.value, end.value, days, schedule, on, off, events);
    return Ok(StateData(start.value, end.value, days, schedule, on, off, events, None));
  }

  /** `SaveDto.toState`: a new state holding what the DTO loads as, or a failure. */
  method ToState(dto: SaveDto) returns (r: Result<ProgramState>)
    ensures r.Ok? <==> Load(dto).Ok?
    ensures r.Ok? ==> fresh(r.value) && r.value.Data() == Load(dto).value
  {
    var read := ReadDto(dto);
    if read.Err? {
      return Err(read.message);
    }
    var data := read.value;
    var st := new ProgramState();
    st.SetRange(data.start, data.end);
    st.trainingDays := data.trainingDays;
    st.timeByDay := data.timeByDay;
    st.forceOn := data.forceOn;
    st.forceOff := data.forceOff;
    st.events := data.events;
    return Ok(st);
  }

  // ---------------------------------------------------------------------
  // The CSV export

  /** One `date,WEEKDAY,minutes` row. */
  datatype CsvRow = CsvRow(date: Date, weekday: Weekday, minutes: int)

  /** The rows for the selected dates of [lo, n), in date order. */
  function CsvRows(s: StateData, lo: Date, n: int): seq<CsvRow>
    requires lo <= n <= LastDay + 1
    decreases n - lo
  {
    if n == lo then []
    else
      var d: Date := n - 1;
      CsvRows(s, lo, n - 1) + (if s.IsSelected(d) then [CsvRow(d, WeekdayOf(d), DayMinutes(s, d))] else [])
  }

  function RowText(r: CsvRow): string {
    FormatIsoDate(r.date) + "," + WeekdayName(r.weekday) + "," + IntToString(r.minutes) + "\n"
  }

  /** The lines of some items, one after another. */
  function Lines<T>(xs: seq<T>, line: T -> string): string {
    if xs == [] then "" else Lines(xs[..|xs| - 1], line) + line(xs[|xs| - 1])
  }

  lemma LinesSnoc<T>(xs: seq<T>, x: T, line: T -> string)
    ensures Lines(xs + [x], line) == Lines(xs, line) + line(x)
  {
    assert (xs + [x])[..|xs|] == xs;
  }

  const CsvHeader: string := "fecha,dow,minutos\n"

  /** The summary block that follows the rows. */
  function CsvFooter(sum: ProgramSummary): string {
    "\nresumen,valor\n"
    + "semanas_del_rango," + IntToString(sum.weeksInRange) + "\n"
    + "semanas_con_entrenamiento," + IntToString(sum.weeksWithTraining) + "\n"
    + "dias_seleccionados," + IntToString(sum.selectedDays) + "\n"
    + "minutos_totales," + IntToString(sum.totalMinutes) + "\n"
  }

  /** The CSV text of the rows of sum's range, followed by sum's block. */
  function CsvDocument(s: StateData, sum: ProgramSummary): string
    requires sum.start <= sum.end
  {
    CsvHeader + Lines(CsvRows(s, sum.start, sum.end + 1), RowText) + CsvFooter(sum)
  }

  /** The CSV text of a state with a range. */
  function CsvText(s: StateData): string
    requires s.HasRange()
  {
    SummarySelectedDays(s);
    CsvDocument(s, Summary(s))
  }

  /** One more date adds its row, if it is selected, to the rows of the range. */
  lemma CsvRowsStep(s: StateData, lo: Date, d: Date)
    requires lo <= d
    ensures CsvRows(s, lo, d + 1)
         == CsvRows(s, lo, d) + (if s.IsSelected(d) then [CsvRow(d, WeekdayOf(d), DayMinutes(s, d))] else [])
  {
  }

  /**
   * The data lines of the dates lo..hi, one per selected date, each written
   * by `line` (which `SaveCsv` passes as `RowText`).
   */
  method CsvBody(s: StateData, lo: Date, hi: Date, line: CsvRow -> string) returns (rows: string)
    requires lo <= hi
    ensures rows == Lines(CsvRows(s, lo, hi + 1), line)
  {
    rows := "";
    var d: int := lo;
    while d <= hi
      invariant lo <= d <= hi + 1
      invariant rows == Lines(CsvRows(s, lo, d), line)
    {
      CsvRowsStep(s, lo, d);
      if s.IsSelected(d) {
        var row := CsvRow(d, WeekdayOf(d), DayMinutes(s, d));
        LinesSnoc(CsvRows(s, lo, d), row, line);
        rows := rows + line(row);
      } else {
        assert CsvRows(s, lo, d + 1) == CsvRows(s, lo, d);
      }
      d := d + 1;
    }
  }

  /**
   * `saveCsv` up to the file write: a failure without a calculator, a state or
   * a range; otherwise the header, one row per selected date, and the summary.
   */
  method SaveCsv(state: ProgramState?, hasCalculator: bool) returns (r: Result<string>)
    ensures r.Err? <==> !hasCalculator || state == null || !state.HasRange()
    ensures r.Ok? ==> r.value == CsvText(state.Data())
  {
    var summary: Option<ProgramSummary> := None;
    if hasCalculator {
      summary := Calculate(state);
    }
    if summary.None? {
      return Err("No hay rango para exportar CSV.");
    }
    var sum := summary.value;
    var s := state.Data();
    var rows := CsvBody(s, sum.start, sum.end, RowText);
    SummarySelectedDays(s);
    return Ok(CsvHeader + rows + CsvFooter(sum));
  }

  /** The sum of the rows' minutes column. */
  function RowMinutes(rows: seq<CsvRow>): int {
    if rows == [] then 0 else RowMinutes(rows[..|rows| - 1]) + rows[|rows| - 1].minutes
  }

  /**
   * The rows are the selected dates of the range in ascending order, as many
   * as `selectedDays`, and their minutes add up to `totalMinutes`.
   */
  lemma {:induction false} CsvRowsMatchSummary(s: StateData, lo: Date, n: int)
    requires lo <= n <= LastDay + 1
    ensures |CsvRows(s, lo, n)| == SelectedCount(s, lo, n)
    ensures RowMinutes(CsvRows(s, lo, n)) == MinutesTotal(s, lo, n)
    ensures forall i :: 0 <= i < |CsvRows(s, lo, n)| ==>
      lo <= CsvRows(s, lo, n)[i].date < n && s.IsSelected(CsvRows(s, lo, n)[i].date)
      && CsvRows(s, lo, n)[i].weekday == WeekdayOf(CsvRows(s, lo, n)[i].date)
    ensures forall i, j :: 0 <= i < j < |CsvRows(s, lo, n)| ==>
      CsvRows(s, lo, n)[i].date < CsvRows(s, lo, n)[j].date
    decreases n - lo
  {
    if n > lo {
      CsvRowsMatchSummary(s, lo, n - 1);
      var rows := CsvRows(s, lo, n);
      var prev := CsvRows(s, lo, n - 1);
      if s.IsSelected(n - 1) {
        assert rows[..|rows| - 1] == prev;
        assert rows == prev + [rows[|rows| - 1]];
      } else {
        assert rows == prev;
      }
    }
  }

  /** Every selected date of the range has a row. */
  lemma {:induction false} CsvRowsComplete(s: StateData, lo: Date, n: int, d: Date)
    requires lo <= d < n <= LastDay + 1 && s.IsSelected(d)
    ensures exists i :: 0 <= i < |CsvRows(s, lo, n)| && CsvRows(s, lo, n)[i].date == d
    decreases n - lo
  {
    var rows := CsvRows(s, lo, n);
    if d == n - 1 {
      assert rows[|rows| - 1].date == d;
    } else {
      CsvRowsComplete(s, lo, n - 1, d);
      var i :| 0 <= i < |CsvRows(s, lo, n - 1)| && CsvRows(s, lo, n - 1)[i].date == d;
      assert rows[i] == CsvRows(s, lo, n - 1)[i];
    }
  }
}
