/**
 * `IcsExporter`: the iCalendar text (RFC 5545) of a programme. One VEVENT
 * per selected date whose weekday has a time window, then one VEVENT per
 * custom event, between a fixed calendar header and footer.
 *
 * What the exporter reads from the platform is a parameter, `Env`: the zone
 * identifier of the system, the Spanish short weekday names, the UTC clock
 * read for each DTSTAMP and the random UUID drawn for each UID.
 */
module Ics {
  import opened Wrappers
  import opened Text
  import opened Calendar
  import opened TimeRanges
  import opened Events
  import opened Program

  // ------------------------------------------------------------ text helpers

  /** `String.replace` with a one-character target: every c becomes r. */
  function ReplaceChar(s: string, c: char, r: string): string
  {
    if s == [] then [] else (if s[0] == c then r else [s[0]]) + ReplaceChar(s[1..], c, r)
  }

  lemma {:induction false} ReplaceCharAppend(a: string, b: string, c: char, r: string)
    ensures ReplaceChar(a + b, c, r) == ReplaceChar(a, c, r) + ReplaceChar(b, c, r)
  {
    if a != [] {
      assert (a + b)[0] == a[0] && (a + b)[1..] == a[1..] + b;
      var h := if a[0] == c then r else [a[0]];
      assert ReplaceChar(a + b, c, r) == h + ReplaceChar(a[1..] + b, c, r);
      assert ReplaceChar(a, c, r) == h + ReplaceChar(a[1..], c, r);
      ReplaceCharAppend(a[1..], b, c, r);
    } else {
      assert a + b == b;
    }
  }

  lemma {:induction false} ReplaceCharAbsent(s: string, c: char, r: string)
    requires forall i :: 0 <= i < |s| ==> s[i] != c
    ensures ReplaceChar(s, c, r) == s
  {
    if s != [] {
      ReplaceCharAbsent(s[1..], c, r);
    }
  }

  /** How `esc` rewrites one character. */
  function EscChar(x: char): string {
    if x == '\\' then "\\\\" else if x == ';' then "\\;" else if x == ',' then "\\," else [x]
  }

  /** Escaping character by character: the reference `esc` is compared against. */
  function EscChars(s: string): string {
    if s == [] then [] else EscChar(s[0]) + EscChars(s[1..])
  }

  /**
   * `esc`: backslashes doubled first, then semicolons and commas preceded by
   * a backslash, as RFC 5545 section 3.3.11 asks of TEXT values. Newlines are
   * not escaped.
   */
  function Esc(s: string): (r: string)
    ensures r == EscChars(s)
    ensures Unescape(r) == s
  {
    EscIsPerChar(s);
    UnescapeEscChars(s);
    ReplaceChar(ReplaceChar(ReplaceChar(s, '\\', "\\\\"), ';', "\\;"), ',', "\\,")
  }

  /** Reading back RFC 5545 TEXT: a backslash stands for the character after it. */
  function Unescape(s: string): string
    decreases |s|
  {
    if s == [] then []
    else if s[0] == '\\' && |s| >= 2 then [s[1]] + Unescape(s[2..])
    else [s[0]] + Unescape(s[1..])
  }

  lemma ReplaceCharOne(x: char, c: char, r: string)
    ensures ReplaceChar([x], c, r) == if x == c then r else [x]
  {
    assert [x][1..] == [];
  }

  lemma EscOneChar(x: char)
    ensures ReplaceChar(ReplaceChar(ReplaceChar([x], '\\', "\\\\"), ';', "\\;"), ',', "\\,") == EscChar(x)
  {
    ReplaceCharOne(x, '\\', "\\\\");
    if x == '\\' {
      ReplaceCharAbsent("\\\\", ';', "\\;");
      ReplaceCharAbsent("\\\\", ',', "\\,");
    } else {
      ReplaceCharOne(x, ';', "\\;");
      if x == ';' {
        ReplaceCharAbsent("\\;", ',', "\\,");
      } else {
        ReplaceCharOne(x, ',', "\\,");
      }
    }
  }

  /** The three chained replacements never rewrite each other's output. */
  lemma {:induction false} EscIsPerChar(s: string)
    ensures ReplaceChar(ReplaceChar(ReplaceChar(s, '\\', "\\\\"), ';', "\\;"), ',', "\\,") == EscChars(s)
  {
    if s != [] {
      assert s == [s[0]] + s[1..];
      ReplaceCharAppend([s[0]], s[1..], '\\', "\\\\");
      ReplaceCharAppend(ReplaceChar([s[0]], '\\', "\\\\"), ReplaceChar(s[1..], '\\', "\\\\"), ';', "\\;");
      ReplaceCharAppend(ReplaceChar(ReplaceChar([s[0]], '\\', "\\\\"), ';', "\\;"),
                        ReplaceChar(ReplaceChar(s[1..], '\\', "\\\\"), ';', "\\;"), ',', "\\,");
      EscOneChar(s[0]);
      EscIsPerChar(s[1..]);
    }
  }

  lemma {:induction false} UnescapeEscChars(s: string)
    ensures Unescape(EscChars(s)) == s
  {
    if s != [] {
      UnescapeEscChars(s[1..]);
      var e := EscChars(s);
      if s[0] == '\\' || s[0] == ';' || s[0] == ',' {
        assert e[0] == '\\' && e[1] == s[0] && e[2..] == EscChars(s[1..]);
      } else {
        assert e[0] == s[0] && e[1..] == EscChars(s[1..]);
      }
    }
  }

  /** `vline` appends the line and a `\n`; the whole builder is the lines joined. */
  function Join(lines: seq<string>): string {
    if lines == [] then "" else Join(lines[..|lines| - 1]) + lines[|lines| - 1] + "\n"
  }

  lemma {:induction false} JoinAppend(a: seq<string>, b: seq<string>)
    ensures Join(a + b) == Join(a) + Join(b)
  {
    if b != [] {
      assert (a + b)[..|a + b| - 1] == a + b[..|b| - 1];
      assert (a + b)[|a + b| - 1] == b[|b| - 1];
      assert Join(a + b) == Join(a + b[..|b| - 1]) + b[|b| - 1] + "\n";
      JoinAppend(a, b[..|b| - 1]);
    } else {
      assert a + b == a;
    }
  }

  /** `replace("\n", "\r\n")` on the finished text. */
  function Crlf(s: string): string {
    ReplaceChar(s, '\n', "\r\n")
  }

  /** After the replacement every line feed ends a CRLF pair, as section 3.1 of RFC 5545 requires. */
  lemma {:induction false} CrlfNoBareLineFeed(s: string)
    ensures var t := Crlf(s);
      forall i :: 0 <= i < |t| && t[i] == '\n' ==> 0 < i && t[i - 1] == '\r'
    ensures Crlf(s) != [] ==> Crlf(s)[0] != '\n'
  {
    if s != [] {
      CrlfNoBareLineFeed(s[1..]);
      var h := if s[0] == '\n' then "\r\n" else [s[0]];
      var t := Crlf(s);
      var rest := Crlf(s[1..]);
      assert t == h + rest;
      forall i | 0 <= i < |t| && t[i] == '\n'
        ensures 0 < i && t[i - 1] == '\r'
      {
        if i >= |h| {
          assert t[i] == rest[i - |h|];
        }
      }
    }
  }

  // ------------------------------------------------------- date-time text

  /** `%04d%02d%02d` of a date: the basic format of section 3.3.4 of RFC 5545. */
  function BasicDate(c: Civil): (r: string)
    requires ValidCivil(c)
    ensures c.year <= 9999 ==> |r| == 8
  {
    Decimal(c.year, 4) + Decimal(c.month, 2) + Decimal(c.day, 2)
  }

  /** `%02d%02d%02d` of a time of day: the basic format of section 3.3.12 of RFC 5545. */
  function BasicTime(t: Time): (r: string)
    ensures |r| == 6
  {
    Decimal(Hour(t), 2) + Decimal(Minute(t), 2) + Decimal(Second(t), 2)
  }

  function ParseBasicDate(s: string): (r: Option<Civil>)
    ensures r.Some? ==> ValidCivil(r.value) && r.value.year <= 9999
  {
    if |s| == 8 && AllDigits(s[..4]) && AllDigits(s[4..6]) && AllDigits(s[6..]) then
      var c := Civil(DigitsValue(s[..4]), DigitsValue(s[4..6]), DigitsValue(s[6..]));
      if ValidCivil(c) then Some(c) else None
    else None
  }

  function ParseBasicTime(s: string): Option<Time>
  {
    if |s| == 6 && AllDigits(s[..2]) && AllDigits(s[2..4]) && AllDigits(s[4..]) then
      var h, m, sec := DigitsValue(s[..2]), DigitsValue(s[2..4]), DigitsValue(s[4..]);
      if h < 24 && m < 60 && sec < 60 then Some(TimeOf(h, m, sec)) else None
    else None
  }

  lemma ParseBasicDateOf(c: Civil)
    requires ValidCivil(c) && c.year <= 9999
    ensures ParseBasicDate(BasicDate(c)) == Some(c)
  {
    var s := BasicDate(c);
    assert s[..4] == Decimal(c.year, 4);
    assert s[4..6] == Decimal(c.month, 2);
    assert s[6..] == Decimal(c.day, 2);
  }

  lemma ParseBasicTimeOf(t: Time)
    ensures ParseBasicTime(BasicTime(t)) == Some(t)
  {
    var s := BasicTime(t);
    assert s[..2] == Decimal(Hour(t), 2);
    assert s[2..4] == Decimal(Minute(t), 2);
    assert s[4..] == Decimal(Second(t), 2);
    TimeOfParts(t);
  }

  /** `fmtLocal`: `%04d%02d%02dT%02d%02d%02d` of the date and the time of day. */
  function FmtLocal(dt: DateTime): (r: string)
    ensures dt.day <= LastDay ==> |r| == 15
  {
    BasicDate(ToCivil(dt.day)) + "T" + BasicTime(dt.time)
  }

  /** `fmtUtc`: the same fields followed by `Z`. */
  function FmtUtc(dt: DateTime): (r: string)
    ensures r == FmtLocal(dt) + "Z"
  {
    BasicDate(ToCivil(dt.day)) + "T" + BasicTime(dt.time) + "Z"
  }

  /** Reading a local date-time in basic format (section 3.3.5 of RFC 5545) back. */
  function ParseLocal(s: string): Option<DateTime>
  {
    if |s| == 15 && s[8] == 'T' then
      match (ParseBasicDate(s[..8]), ParseBasicTime(s[9..]))
      case (Some(c), Some(t)) => Some(DateTime(FromCivil(c), t))
      case _ => None
    else None
  }

  lemma ParseLocalOf(c: Civil, t: Time)
    requires ValidCivil(c) && c.year <= 9999
    ensures ParseLocal(BasicDate(c) + "T" + BasicTime(t)) == Some(DateTime(FromCivil(c), t))
  {
    var s := BasicDate(c) + "T" + BasicTime(t);
    assert s[..8] == BasicDate(c);
    assert s[9..] == BasicTime(t);
    ParseBasicDateOf(c);
    ParseBasicTimeOf(t);
  }

  /** `fmtLocal` loses nothing for the dates of the model. */
  lemma ParseFmtLocal(dt: DateTime)
    requires dt.day <= LastDay
    ensures ParseLocal(FmtLocal(dt)) == Some(dt)
  {
    ParseLocalOf(ToCivil(dt.day), dt.time);
  }

  /** The date part of a UID: `d.toString().replace("-", "")`. */
  function DateDigits(d: Date): string {
    ReplaceChar(FormatIsoDate(d), '-', "")
  }

  lemma DropDash(x: string, y: string)
    ensures ReplaceChar(x + "-" + y, '-', "") == ReplaceChar(x, '-', "") + ReplaceChar(y, '-', "")
  {
    ReplaceCharAppend(x + "-", y, '-', "");
    ReplaceCharAppend(x, "-", '-', "");
    ReplaceCharOne('-', '-', "");
  }

  lemma DropDashes(y: string, m: string, d: string)
    requires AllDigits(y) && AllDigits(m) && AllDigits(d)
    ensures ReplaceChar(y + "-" + m + "-" + d, '-', "") == y + m + d
  {
    DropDash(y + "-" + m, d);
    DropDash(y, m);
    ReplaceCharAbsent(y, '-', "");
    ReplaceCharAbsent(m, '-', "");
    ReplaceCharAbsent(d, '-', "");
  }

  lemma PrefixOf(a: string, b: string)
    ensures (a + b)[..|a|] == a
  {
  }

  /** The UID's date part is the date part of `fmtLocal`: `yyyyMMdd`. */
  lemma DateDigitsAreLocalDate(d: Date, t: Time)
    ensures DateDigits(d) == FmtLocal(DateTime(d, t))[..8]
  {
    var c := ToCivil(d);
    DropDashes(Decimal(c.year, 4), Decimal(c.month, 2), Decimal(c.day, 2));
    PrefixOf(BasicDate(c), "T" + BasicTime(t));
  }

  // --------------------------------------------------- start and end times

  function StartOf(d: Date, tr: TimeRange): DateTime {
    DateTime(d, tr.start)
  }

  /** DTEND: on the next day when the window's end lies before its start, else on d. */
  function EndOf(d: Date, tr: TimeRange): DateTime {
    if tr.end < tr.start then DateTime(d + 1, tr.end) else DateTime(d, tr.end)
  }

  /** Seconds from 1970-01-01T00:00 on the local time line. */
  function Instant(dt: DateTime): int {
    dt.day * 86400 + dt.time
  }

  /**
   * The exported event always lasts less than a day and never runs backwards;
   * it lasts `minutes()` whole minutes when the end is not before the start.
   * A window that crosses midnight is a positive span in the calendar while
   * `minutes()` counts it as 0.
   */
  lemma ExportedSpan(d: Date, tr: TimeRange)
    ensures var span := Instant(EndOf(d, tr)) - Instant(StartOf(d, tr));
      && 0 <= span < 86400
      && (tr.start <= tr.end ==> 60 * tr.Minutes() <= span < 60 * tr.Minutes() + 60)
      && (tr.end < tr.start ==> span > 0 && tr.Minutes() == 0)
  {
  }

  // ------------------------------------------------------------ the events

  /** What a DTSTAMP or UID is drawn for: a training date, or the i-th event filed under a date. */
  datatype VEventKey = Training(date: Date) | Custom(date: Date, index: nat)

  /**
   * The platform as the exporter sees it: `ZoneId.systemDefault().getId()`,
   * the `es-ES` short display name of each weekday, the UTC clock read for
   * each VEVENT and the random UUID drawn for each VEVENT.
   */
  datatype Env = Env(
    tzid: string,
    dayName: Weekday -> string,
    now: VEventKey -> DateTime,
    uuid: VEventKey -> string)

  const ProdId := "-//CalendarioEntrenamiento//1.0//ES"
  const Header: seq<string> :=
    ["BEGIN:VCALENDAR", Property("PRODID", ProdId), Property("VERSION", "2.0"),
     Property("CALSCALE", "GREGORIAN"), Property("METHOD", "PUBLISH")]
  const Footer := "END:VCALENDAR"
  const NoRangeMessage := "No hay rango definido para exportar."
  const BeginEvent := "BEGIN:VEVENT"
  const EndEvent := "END:VEVENT"
  const BeginAlarm := "BEGIN:VALARM"
  const EndAlarm := "END:VALARM"

  /** A content line `name:value`; the name may carry parameters, as in `DTSTART;TZID=...`. */
  function Property(name: string, value: string): string {
    name + ":" + value
  }

  /** `BEGIN:VEVENT`, the component's lines, `END:VEVENT`. */
  function VEvent(body: seq<string>): seq<string> {
    [BeginEvent] + body + [EndEvent]
  }

  /** The properties of a training session on d with window tr. */
  function TrainingProperties(env: Env, d: Date, tr: TimeRange): seq<string> {
    var key := Training(d);
    [Property("UID", DateDigits(d) + "-" + env.uuid(key)),
     Property("SUMMARY", Esc("Entrenamiento (" + env.dayName(WeekdayOf(d)) + ")")),
     Property("DTSTAMP", FmtUtc(env.now(key))),
     Property("DTSTART;TZID=" + env.tzid, FmtLocal(StartOf(d, tr))),
     Property("DTEND;TZID=" + env.tzid, FmtLocal(EndOf(d, tr)))]
  }

  function TrainingVEvent(env: Env, d: Date, tr: TimeRange): seq<string> {
    VEvent(TrainingProperties(env, d, tr))
  }

  /** The VALARM of an event with a reminder: a display ten minutes before the start. */
  function Alarm(title: string): seq<string> {
    [BeginAlarm, Property("TRIGGER", "-PT10M"), Property("ACTION", "DISPLAY"), Property("DESCRIPTION", Esc(title)), EndAlarm]
  }

  /** A property line written only when its value is not blank. */
  function Optional(name: string, value: string): seq<string> {
    if IsBlank(value) then [] else [Property(name, Esc(value))]
  }

  /** The properties of the i-th event filed under d. */
  function CustomProperties(env: Env, d: Date, i: nat, ev: CalendarEvent): seq<string> {
    var key := Custom(d, i);
    [Property("UID", DateDigits(d) + "-evt-" + env.uuid(key)),
     Property("SUMMARY", Esc(ev.title))]
    + Optional("DESCRIPTION", ev.description)
    + Optional("LOCATION", ev.location)
    + [Property("DTSTAMP", FmtUtc(env.now(key))),
       Property("DTSTART;TZID=" + env.tzid, FmtLocal(StartOf(d, ev.time))),
       Property("DTEND;TZID=" + env.tzid, FmtLocal(EndOf(d, ev.time)))]
  }

  /** The i-th event filed under d, with its alarm when it asks for a reminder. */
  function CustomVEvent(env: Env, d: Date, i: nat, ev: CalendarEvent): seq<string> {
    VEvent(CustomProperties(env, d, i, ev) + (if ev.reminder then Alarm(ev.title) else []))
  }

  function TrainingBlock(env: Env): (Date, TimeRange) -> seq<string> {
    (d: Date, tr: TimeRange) => TrainingVEvent(env, d, tr)
  }

  function CustomBlock(env: Env): (Date, nat, CalendarEvent) -> seq<string> {
    (d: Date, i: nat, ev: CalendarEvent) => CustomVEvent(env, d, i, ev)
  }

  // ----------------------------------------------------- the whole calendar

  /** The window of the training session on d: d is selected and its weekday has a window. */
  function SessionOf(s: StateData, d: Date): Option<TimeRange> {
    if s.IsSelected(d) && WeekdayOf(d) in s.timeByDay then Some(s.timeByDay[WeekdayOf(d)]) else None
  }

  function Sessions(s: StateData): Date -> Option<TimeRange> {
    (d: Date) => SessionOf(s, d)
  }

  /** The training lines for the dates lo .. n - 1, in date order. */
  function TrainingLines(session: Date -> Option<TimeRange>, lo: Date, n: int,
                         block: (Date, TimeRange) -> seq<string>): seq<string>
    requires lo <= n <= LastDay + 1
    decreases n - lo
  {
    if n == lo then []
    else
      var d: Date := n - 1;
      TrainingLines(session, lo, n - 1, block) + (match session(d) case Some(tr) => block(d, tr) case None => [])
  }

  /** The dates lo .. n - 1 that hold a training session, in date order. */
  function TrainingDates(session: Date -> Option<TimeRange>, lo: Date, n: int): seq<Date>
    requires lo <= n <= LastDay + 1
    decreases n - lo
  {
    if n == lo then []
    else
      var d: Date := n - 1;
      TrainingDates(session, lo, n - 1) + (if session(d).Some? then [d] else [])
  }

  /** The lines of the events filed under d, in list order. */
  function ListLines(d: Date, evs: seq<CalendarEvent>, block: (Date, nat, CalendarEvent) -> seq<string>): seq<string> {
    if evs == [] then []
    else ListLines(d, evs[..|evs| - 1], block) + block(d, |evs| - 1, evs[|evs| - 1])
  }

  /** The lines of every event, date by date in the given order. */
  function MapLines(events: map<Date, seq<CalendarEvent>>, order: seq<Date>,
                    block: (Date, nat, CalendarEvent) -> seq<string>): seq<string>
    requires forall i :: 0 <= i < |order| ==> order[i] in events
  {
    if order == [] then []
    else
      var d := order[|order| - 1];
      MapLines(events, order[..|order| - 1], block) + ListLines(d, events[d], block)
  }

  /** Listing one more date appends that date's lines. */
  lemma MapLinesSnoc(events: map<Date, seq<CalendarEvent>>, order: seq<Date>, d: Date,
                     block: (Date, nat, CalendarEvent) -> seq<string>)
    requires forall i :: 0 <= i < |order| ==> order[i] in events
    requires d in events
    ensures MapLines(events, order + [d], block) == MapLines(events, order, block) + ListLines(d, events[d], block)
  {
    assert (order + [d])[..|order|] == order;
  }

  /** An order that lists every key exactly once: the iteration order of a `HashMap`. */
  ghost predicate Enumerates(order: seq<Date>, keys: set<Date>) {
    && (forall i, j :: 0 <= i < j < |order| ==> order[i] != order[j])
    && (forall x :: x in order <==> x in keys)
  }

  /** The header, the training lines for lo .. n - 1, the event lines in the given order, and the footer. */
  function Layout(session: Date -> Option<TimeRange>, lo: Date, n: int,
                  events: map<Date, seq<CalendarEvent>>, order: seq<Date>,
                  training: (Date, TimeRange) -> seq<string>,
                  custom: (Date, nat, CalendarEvent) -> seq<string>): seq<string>
    requires lo <= n <= LastDay + 1
    requires forall i :: 0 <= i < |order| ==> order[i] in events
  {
    Header + TrainingLines(session, lo, n, training) + MapLines(events, order, custom) + [Footer]
  }

  /** The lines the exporter writes for state s, events visited in the given order. */
  function Document(s: StateData, env: Env, order: seq<Date>): seq<string>
    requires s.HasRange()
    requires forall i :: 0 <= i < |order| ==> order[i] in s.events
  {
    Layout(Sessions(s), s.MinDate().value, s.MaxDate().value + 1, s.events, order, TrainingBlock(env), CustomBlock(env))
  }

  /** The exported text: the lines joined by `vline`, then every `\n` made `\r\n`. */
  function IcsText(s: StateData, env: Env, order: seq<Date>): string
    requires s.HasRange()
    requires forall i :: 0 <= i < |order| ==> order[i] in s.events
  {
    Crlf(Join(Document(s, env, order)))
  }

  // ------------------------------------------------------------ the export

  /** The first loop of `export`: the training sessions from lo to hi, appended to the builder. */
  method AppendTraining(sb: seq<string>, s: StateData, lo: Date, hi: Date,
                        block: (Date, TimeRange) -> seq<string>) returns (out: seq<string>)
    requires lo <= hi
    ensures out == sb + TrainingLines(Sessions(s), lo, hi + 1, block)
  {
    out := sb;
    var d: int := lo;
    while d <= hi
      invariant lo <= d <= hi + 1
      invariant out == sb + TrainingLines(Sessions(s), lo, d, block)
    {
      assert Sessions(s)(d) == SessionOf(s, d);
      if s.IsSelected(d) {
        var w := WeekdayOf(d);
        if w in s.timeByDay {
          out := out + block(d, s.timeByDay[w]);
        } else {
          assert TrainingLines(Sessions(s), lo, d + 1, block) == TrainingLines(Sessions(s), lo, d, block) + [];
        }
      } else {
        assert TrainingLines(Sessions(s), lo, d + 1, block) == TrainingLines(Sessions(s), lo, d, block) + [];
      }
      d := d + 1;
    }
  }

  /** The inner loop of the second loop: the events of one date, in list order, appended to the builder. */
  method AppendDay(sb: seq<string>, d: Date, evs: seq<CalendarEvent>,
                   block: (Date, nat, CalendarEvent) -> seq<string>) returns (out: seq<string>)
    ensures out == sb + ListLines(d, evs, block)
  {
    out := sb;
    for i := 0 to |evs|
      invariant out == sb + ListLines(d, evs[..i], block)
    {
      assert evs[..i + 1][..i] == evs[..i];
      out := out + block(d, i, evs[i]);
    }
    assert evs[..|evs|] == evs;
  }

  /** The second loop of `export`: every event, date by date, appended to the builder. */
  method AppendEvents(sb: seq<string>, events: map<Date, seq<CalendarEvent>>,
                      block: (Date, nat, CalendarEvent) -> seq<string>)
    returns (out: seq<string>, order: seq<Date>)
    ensures Enumerates(order, events.Keys)
    ensures out == sb + MapLines(events, order, block)
  {
    out, order := sb, [];
    var pending := events.Keys;
    while pending != {}
      invariant pending <= events.Keys
      invariant forall i :: 0 <= i < |order| ==> order[i] in events && order[i] !in pending
      invariant forall i, j :: 0 <= i < j < |order| ==> order[i] != order[j]
      invariant forall x :: x in events && x !in pending ==> x in order
      invariant out == sb + MapLines(events, order, block)
      decreases pending
    {
      var d :| d in pending;
      out := AppendDay(out, d, events[d], block);
      MapLinesSnoc(events, order, d, block);
      order := order + [d];
      pending := pending - {d};
    }
  }

  /**
   * `export`: an error without a state or a range; otherwise the header, the
   * training sessions in date order, the events in the map's iteration order
   * (returned as `order`) and the footer, with CRLF line ends.
   */
  method Export(state: ProgramState?, env: Env) returns (r: Result<string>, order: seq<Date>)
    ensures r.Err? <==> state == null || !state.Data().HasRange()
    ensures r.Err? ==> r.message == NoRangeMessage
    ensures r.Ok? ==> state != null && Enumerates(order, state.Data().events.Keys)
    ensures r.Ok? ==> state != null && r.value == IcsText(state.Data(), env, order)
  {
    if state == null || !state.HasRange() {
      return Err(NoRangeMessage), [];
    }
    var s := state.Data();
    var sb := Header;
    sb := AppendTraining(sb, s, state.MinDate().value, state.MaxDate().value, TrainingBlock(env));
    sb, order := AppendEvents(sb, state.events, CustomBlock(env));
    sb := sb + [Footer];
    r := Ok(Crlf(Join(sb)));
  }

  // ------------------------------------------------- the shape of the text

  /** How often a line occurs. */
  function Count(lines: seq<string>, x: string): nat {
    multiset(lines)[x]
  }

  predicate IsMarker(l: string) {
    l == BeginEvent || l == EndEvent || l == BeginAlarm || l == EndAlarm
  }

  predicate NoMarkers(lines: seq<string>) {
    forall i :: 0 <= i < |lines| ==> !IsMarker(lines[i])
  }

  lemma NoMarkersCount(lines: seq<string>, x: string)
    requires NoMarkers(lines) && IsMarker(x)
    ensures Count(lines, x) == 0
  {
  }

  /** A property whose name starts with neither `B` nor `E` is no BEGIN or END line. */
  lemma PropertyIsNoMarker(name: string, value: string)
    requires name != [] && name[0] != 'B' && name[0] != 'E'
    ensures !IsMarker(Property(name, value))
  {
    assert Property(name, value)[0] == name[0];
  }

  lemma PropertiesAreNoMarkers(uid: string, summary: string, stamp: string, tzid: string, start: string, end: string)
    ensures NoMarkers([Property("UID", uid), Property("SUMMARY", summary), Property("DTSTAMP", stamp),
                       Property("DTSTART;TZID=" + tzid, start), Property("DTEND;TZID=" + tzid, end)])
  {
    PropertyIsNoMarker("UID", uid);
    PropertyIsNoMarker("SUMMARY", summary);
    PropertyIsNoMarker("DTSTAMP", stamp);
    assert ("DTSTART;TZID=" + tzid)[0] == 'D';
    PropertyIsNoMarker("DTSTART;TZID=" + tzid, start);
    assert ("DTEND;TZID=" + tzid)[0] == 'D';
    PropertyIsNoMarker("DTEND;TZID=" + tzid, end);
  }

  lemma OptionalIsNoMarker(name: string, value: string)
    requires name != [] && name[0] != 'B' && name[0] != 'E'
    ensures NoMarkers(Optional(name, value))
  {
    PropertyIsNoMarker(name, Esc(value));
  }

  /** A VEVENT around lines that hold no markers opens and closes once and holds no alarm. */
  lemma VEventMarkers(body: seq<string>)
    requires NoMarkers(body)
    ensures var b := VEvent(body);
      Count(b, BeginEvent) == 1 && Count(b, EndEvent) == 1 && Count(b, BeginAlarm) == 0 && Count(b, EndAlarm) == 0
  {
    NoMarkersCount(body, BeginEvent);
    NoMarkersCount(body, EndEvent);
    NoMarkersCount(body, BeginAlarm);
    NoMarkersCount(body, EndAlarm);
  }

  lemma TrainingPropertiesAreNoMarkers(env: Env, d: Date, tr: TimeRange)
    ensures NoMarkers(TrainingProperties(env, d, tr))
  {
    var key := Training(d);
    PropertiesAreNoMarkers(DateDigits(d) + "-" + env.uuid(key), Esc("Entrenamiento (" + env.dayName(WeekdayOf(d)) + ")"),
      FmtUtc(env.now(key)), env.tzid, FmtLocal(StartOf(d, tr)), FmtLocal(EndOf(d, tr)));
  }

  /** A training VEVENT opens and closes once and holds no alarm. */
  lemma TrainingVEventMarkers(env: Env, d: Date, tr: TimeRange)
    ensures var b := TrainingVEvent(env, d, tr);
      Count(b, BeginEvent) == 1 && Count(b, EndEvent) == 1 && Count(b, BeginAlarm) == 0 && Count(b, EndAlarm) == 0
  {
    TrainingPropertiesAreNoMarkers(env, d, tr);
    VEventMarkers(TrainingProperties(env, d, tr));
  }

  lemma CustomShapeIsNoMarkers(uid: string, summary: string, description: seq<string>, location: seq<string>,
                               stamp: string, tzid: string, start: string, end: string)
    requires NoMarkers(description) && NoMarkers(location)
    ensures NoMarkers([Property("UID", uid), Property("SUMMARY", summary)] + description + location
                      + [Property("DTSTAMP", stamp), Property("DTSTART;TZID=" + tzid, start),
                         Property("DTEND;TZID=" + tzid, end)])
  {
    PropertyIsNoMarker("UID", uid);
    PropertyIsNoMarker("SUMMARY", summary);
    PropertyIsNoMarker("DTSTAMP", stamp);
    assert ("DTSTART;TZID=" + tzid)[0] == 'D';
    PropertyIsNoMarker("DTSTART;TZID=" + tzid, start);
    assert ("DTEND;TZID=" + tzid)[0] == 'D';
    PropertyIsNoMarker("DTEND;TZID=" + tzid, end);
  }

  lemma CustomPropertiesAreNoMarkers(env: Env, d: Date, i: nat, ev: CalendarEvent)
    ensures NoMarkers(CustomProperties(env, d, i, ev))
  {
    var key := Custom(d, i);
    OptionalIsNoMarker("DESCRIPTION", ev.description);
    OptionalIsNoMarker("LOCATION", ev.location);
    CustomShapeIsNoMarkers(DateDigits(d) + "-evt-" + env.uuid(key), Esc(ev.title),
      Optional("DESCRIPTION", ev.description), Optional("LOCATION", ev.location),
      FmtUtc(env.now(key)), env.tzid, FmtLocal(StartOf(d, ev.time)), FmtLocal(EndOf(d, ev.time)));
  }

  /** A VALARM opens and closes once and holds no VEVENT marker. */
  lemma AlarmMarkers(title: string)
    ensures var a := Alarm(title);
      Count(a, BeginAlarm) == 1 && Count(a, EndAlarm) == 1 && Count(a, BeginEvent) == 0 && Count(a, EndEvent) == 0
  {
    var body := [Property("TRIGGER", "-PT10M"), Property("ACTION", "DISPLAY"), Property("DESCRIPTION", Esc(title))];
    PropertyIsNoMarker("TRIGGER", "-PT10M");
    PropertyIsNoMarker("ACTION", "DISPLAY");
    PropertyIsNoMarker("DESCRIPTION", Esc(title));
    assert Alarm(title) == [BeginAlarm] + body + [EndAlarm];
    NoMarkersCount(body, BeginEvent);
    NoMarkersCount(body, EndEvent);
    NoMarkersCount(body, BeginAlarm);
    NoMarkersCount(body, EndAlarm);
  }

  lemma VEventWithAlarmMarkers(body: seq<string>, alarm: seq<string>, k: nat)
    requires NoMarkers(body)
    requires Count(alarm, BeginAlarm) == k && Count(alarm, EndAlarm) == k
    requires Count(alarm, BeginEvent) == 0 && Count(alarm, EndEvent) == 0
    ensures var b := VEvent(body + alarm);
      Count(b, BeginEvent) == 1 && Count(b, EndEvent) == 1 && Count(b, BeginAlarm) == k && Count(b, EndAlarm) == k
  {
    NoMarkersCount(body, BeginEvent);
    NoMarkersCount(body, EndEvent);
    NoMarkersCount(body, BeginAlarm);
    NoMarkersCount(body, EndAlarm);
  }

  /** 1 for an event that asks for a reminder, else 0. */
  function Reminded(ev: CalendarEvent): nat {
    if ev.reminder then 1 else 0
  }

  function One(ev: CalendarEvent): nat {
    1
  }

  /** An event's VEVENT opens and closes once and holds one alarm exactly when it asks for a reminder. */
  lemma CustomVEventMarkers(env: Env, d: Date, i: nat, ev: CalendarEvent)
    ensures var b := CustomVEvent(env, d, i, ev);
      && Count(b, BeginEvent) == 1 && Count(b, EndEvent) == 1
      && Count(b, BeginAlarm) == Reminded(ev) && Count(b, EndAlarm) == Reminded(ev)
  {
    CustomPropertiesAreNoMarkers(env, d, i, ev);
    AlarmMarkers(ev.title);
    VEventWithAlarmMarkers(CustomProperties(env, d, i, ev), if ev.reminder then Alarm(ev.title) else [], Reminded(ev));
  }

  /** Every block opens and closes one VEVENT and holds no VALARM. */
  ghost predicate SessionBlocks(block: (Date, TimeRange) -> seq<string>) {
    forall d: Date, tr: TimeRange :: var b := block(d, tr);
      Count(b, BeginEvent) == 1 && Count(b, EndEvent) == 1 && Count(b, BeginAlarm) == 0 && Count(b, EndAlarm) == 0
  }

  /** Every block opens and closes one VEVENT, and one VALARM exactly when its event asks for a reminder. */
  ghost predicate EventBlocks(block: (Date, nat, CalendarEvent) -> seq<string>) {
    forall d: Date, i: nat, ev: CalendarEvent :: var b := block(d, i, ev);
      && Count(b, BeginEvent) == One(ev) && Count(b, EndEvent) == One(ev)
      && Count(b, BeginAlarm) == Reminded(ev) && Count(b, EndAlarm) == Reminded(ev)
  }

  lemma TrainingBlockMarkers(env: Env)
    ensures SessionBlocks(TrainingBlock(env))
  {
    forall d: Date, tr: TimeRange
      ensures var b := TrainingBlock(env)(d, tr);
        Count(b, BeginEvent) == 1 && Count(b, EndEvent) == 1 && Count(b, BeginAlarm) == 0 && Count(b, EndAlarm) == 0
    {
      TrainingVEventMarkers(env, d, tr);
    }
  }

  lemma CustomBlockMarkers(env: Env)
    ensures EventBlocks(CustomBlock(env))
  {
    forall d: Date, i: nat, ev: CalendarEvent
      ensures var b := CustomBlock(env)(d, i, ev);
        && Count(b, BeginEvent) == One(ev) && Count(b, EndEvent) == One(ev)
        && Count(b, BeginAlarm) == Reminded(ev) && Count(b, EndAlarm) == Reminded(ev)
    {
      CustomVEventMarkers(env, d, i, ev);
    }
  }

  // ------------------------------------------------------------- counting

  /** The sum of f over the events of a list. */
  function ListSum(evs: seq<CalendarEvent>, f: CalendarEvent -> nat): nat {
    if evs == [] then 0 else ListSum(evs[..|evs| - 1], f) + f(evs[|evs| - 1])
  }

  /** The sum of f over every event, date by date in the given order. */
  function MapSum(events: map<Date, seq<CalendarEvent>>, order: seq<Date>, f: CalendarEvent -> nat): nat
    requires forall i :: 0 <= i < |order| ==> order[i] in events
  {
    if order == [] then 0
    else MapSum(events, order[..|order| - 1], f) + ListSum(events[order[|order| - 1]], f)
  }

  /** With one marker per block, the training lines hold one marker per training date. */
  lemma {:induction false} TrainingLinesCount(session: Date -> Option<TimeRange>, lo: Date, n: int,
                                              block: (Date, TimeRange) -> seq<string>, x: string)
    requires lo <= n <= LastDay + 1
    requires forall d: Date, tr: TimeRange :: Count(block(d, tr), x) == 1
    ensures Count(TrainingLines(session, lo, n, block), x) == |TrainingDates(session, lo, n)|
    decreases n - lo
  {
    if n > lo {
      TrainingLinesCount(session, lo, n - 1, block, x);
      if session(n - 1).Some? {
        var tr := session(n - 1).value;
        assert TrainingLines(session, lo, n, block) == TrainingLines(session, lo, n - 1, block) + block(n - 1, tr);
      } else {
        assert TrainingLines(session, lo, n, block) == TrainingLines(session, lo, n - 1, block) + [];
        assert TrainingDates(session, lo, n) == TrainingDates(session, lo, n - 1) + [];
      }
    }
  }

  /** With no marker in any block, the training lines hold none. */
  lemma {:induction false} TrainingLinesCountNone(session: Date -> Option<TimeRange>, lo: Date, n: int,
                                                  block: (Date, TimeRange) -> seq<string>, x: string)
    requires lo <= n <= LastDay + 1
    requires forall d: Date, tr: TimeRange :: Count(block(d, tr), x) == 0
    ensures Count(TrainingLines(session, lo, n, block), x) == 0
    decreases n - lo
  {
    if n > lo {
      TrainingLinesCountNone(session, lo, n - 1, block, x);
      if session(n - 1).Some? {
        var tr := session(n - 1).value;
        assert TrainingLines(session, lo, n, block) == TrainingLines(session, lo, n - 1, block) + block(n - 1, tr);
      } else {
        assert TrainingLines(session, lo, n, block) == TrainingLines(session, lo, n - 1, block) + [];
      }
    }
  }

  lemma {:induction false} ListLinesCount(d: Date, evs: seq<CalendarEvent>, block: (Date, nat, CalendarEvent) -> seq<string>,
                                          x: string, f: CalendarEvent -> nat)
    requires forall d: Date, i: nat, ev: CalendarEvent :: Count(block(d, i, ev), x) == f(ev)
    ensures Count(ListLines(d, evs, block), x) == ListSum(evs, f)
  {
    if evs != [] {
      ListLinesCount(d, evs[..|evs| - 1], block, x, f);
    }
  }

  lemma {:induction false} MapLinesCount(events: map<Date, seq<CalendarEvent>>, order: seq<Date>,
                                         block: (Date, nat, CalendarEvent) -> seq<string>, x: string, f: CalendarEvent -> nat)
    requires forall i :: 0 <= i < |order| ==> order[i] in events
    requires forall d: Date, i: nat, ev: CalendarEvent :: Count(block(d, i, ev), x) == f(ev)
    ensures Count(MapLines(events, order, block), x) == MapSum(events, order, f)
  {
    if order != [] {
      MapLinesCount(events, order[..|order| - 1], block, x, f);
      ListLinesCount(order[|order| - 1], events[order[|order| - 1]], block, x, f);
    }
  }

  lemma FrameIsNoMarkers()
    ensures NoMarkers(Header) && NoMarkers([Footer])
  {
    PropertyIsNoMarker("PRODID", ProdId);
    PropertyIsNoMarker("VERSION", "2.0");
    PropertyIsNoMarker("CALSCALE", "GREGORIAN");
    PropertyIsNoMarker("METHOD", "PUBLISH");
    assert |Header[0]| == 15 && |Footer| == 13;
  }

  /** Markers of the header, training lines, event lines and footer add up. */
  lemma LayoutCount(session: Date -> Option<TimeRange>, lo: Date, n: int,
                    events: map<Date, seq<CalendarEvent>>, order: seq<Date>,
                    training: (Date, TimeRange) -> seq<string>,
                    custom: (Date, nat, CalendarEvent) -> seq<string>, x: string)
    requires lo <= n <= LastDay + 1
    requires forall i :: 0 <= i < |order| ==> order[i] in events
    requires IsMarker(x)
    ensures Count(Layout(session, lo, n, events, order, training, custom), x)
      == Count(TrainingLines(session, lo, n, training), x) + Count(MapLines(events, order, custom), x)
  {
    FrameIsNoMarkers();
    NoMarkersCount(Header, x);
    NoMarkersCount([Footer], x);
  }

  lemma LayoutEvents(session: Date -> Option<TimeRange>, lo: Date, n: int,
                     events: map<Date, seq<CalendarEvent>>, order: seq<Date>,
                     training: (Date, TimeRange) -> seq<string>,
                     custom: (Date, nat, CalendarEvent) -> seq<string>, x: string)
    requires lo <= n <= LastDay + 1
    requires forall i :: 0 <= i < |order| ==> order[i] in events
    requires SessionBlocks(training) && EventBlocks(custom)
    requires x == BeginEvent || x == EndEvent
    ensures Count(Layout(session, lo, n, events, order, training, custom), x)
      == |TrainingDates(session, lo, n)| + MapSum(events, order, One)
  {
    TrainingLinesCount(session, lo, n, training, x);
    MapLinesCount(events, order, custom, x, One);
    LayoutCount(session, lo, n, events, order, training, custom, x);
  }

  lemma LayoutAlarms(session: Date -> Option<TimeRange>, lo: Date, n: int,
                     events: map<Date, seq<CalendarEvent>>, order: seq<Date>,
                     training: (Date, TimeRange) -> seq<string>,
                     custom: (Date, nat, CalendarEvent) -> seq<string>, x: string)
    requires lo <= n <= LastDay + 1
    requires forall i :: 0 <= i < |order| ==> order[i] in events
    requires SessionBlocks(training) && EventBlocks(custom)
    requires x == BeginAlarm || x == EndAlarm
    ensures Count(Layout(session, lo, n, events, order, training, custom), x) == MapSum(events, order, Reminded)
  {
    TrainingLinesCountNone(session, lo, n, training, x);
    MapLinesCount(events, order, custom, x, Reminded);
    LayoutCount(session, lo, n, events, order, training, custom, x);
  }

  /** The marker counts of a document with the given numbers of sessions, events and reminders. */
  predicate Balanced(doc: seq<string>, sessions: nat, events: nat, reminders: nat) {
    && Count(doc, BeginEvent) == sessions + events && Count(doc, EndEvent) == sessions + events
    && Count(doc, BeginAlarm) == reminders && Count(doc, EndAlarm) == reminders
  }

  lemma LayoutMarkers(session: Date -> Option<TimeRange>, lo: Date, n: int,
                      events: map<Date, seq<CalendarEvent>>, order: seq<Date>,
                      training: (Date, TimeRange) -> seq<string>,
                      custom: (Date, nat, CalendarEvent) -> seq<string>)
    requires lo <= n <= LastDay + 1
    requires forall i :: 0 <= i < |order| ==> order[i] in events
    requires SessionBlocks(training) && EventBlocks(custom)
    ensures Balanced(Layout(session, lo, n, events, order, training, custom),
                     |TrainingDates(session, lo, n)|, MapSum(events, order, One), MapSum(events, order, Reminded))
  {
    LayoutEvents(session, lo, n, events, order, training, custom, BeginEvent);
    LayoutEvents(session, lo, n, events, order, training, custom, EndEvent);
    LayoutAlarms(session, lo, n, events, order, training, custom, BeginAlarm);
    LayoutAlarms(session, lo, n, events, order, training, custom, EndAlarm);
  }

  /**
   * Every VEVENT and VALARM of the document is closed: there is one VEVENT
   * per training date and per event, and one VALARM per event with a reminder.
   */
  lemma DocumentMarkers(s: StateData, env: Env, order: seq<Date>, lo: Date, hi: Date)
    requires s.MinDate() == Some(lo) && s.MaxDate() == Some(hi)
    requires forall i :: 0 <= i < |order| ==> order[i] in s.events
    ensures Balanced(Document(s, env, order), |TrainingDates(Sessions(s), lo, hi + 1)|,
                     MapSum(s.events, order, One), MapSum(s.events, order, Reminded))
  {
    TrainingBlockMarkers(env);
    CustomBlockMarkers(env);
    LayoutMarkers(Sessions(s), lo, hi + 1, s.events, order, TrainingBlock(env), CustomBlock(env));
  }

  /** The training dates are the dates of the range that hold a session, in increasing order. */
  lemma {:induction false} TrainingDatesAre(session: Date -> Option<TimeRange>, lo: Date, n: int)
    requires lo <= n <= LastDay + 1
    ensures var ds := TrainingDates(session, lo, n);
      && (forall i, j :: 0 <= i < j < |ds| ==> ds[i] < ds[j])
      && (forall d: Date :: d in ds <==> lo <= d < n && session(d).Some?)
    decreases n - lo
  {
    if n > lo {
      TrainingDatesAre(session, lo, n - 1);
      var ds := TrainingDates(session, lo, n - 1);
      forall i | 0 <= i < |ds|
        ensures ds[i] < n - 1
      {
        assert ds[i] in ds;
      }
    }
  }

  /** A date holds a session exactly when it is selected and its weekday has a window. */
  lemma SessionsAre(s: StateData, d: Date)
    ensures Sessions(s)(d).Some? <==> s.IsSelected(d) && WeekdayOf(d) in s.timeByDay
    ensures Sessions(s)(d).Some? ==> Sessions(s)(d).value == s.timeByDay[WeekdayOf(d)]
  {
  }

  lemma JoinOne(l: string)
    ensures Join([l]) == l + "\n"
  {
    assert [l][..0] == [];
  }

  /** A line without line feeds, ended by `vline` and converted, ends in CRLF. */
  lemma CrlfLine(l: string)
    requires forall i :: 0 <= i < |l| ==> l[i] != '\n'
    ensures Crlf(Join([l])) == l + "\r\n"
  {
    JoinOne(l);
    ReplaceCharAppend(l, "\n", '\n', "\r\n");
    ReplaceCharAbsent(l, '\n', "\r\n");
    ReplaceCharOne('\n', '\n', "\r\n");
  }

  /** Whatever lies between, the text opens the calendar on its first line and closes it on its last. */
  lemma FramedText(mid: seq<string>)
    ensures var t := Crlf(Join(Header + mid + [Footer]));
      |t| >= 32 && t[..17] == "BEGIN:VCALENDAR\r\n" && t[|t| - 15..] == "END:VCALENDAR\r\n"
  {
    var first, rest := [Header[0]], Header[1..] + mid;
    assert Header + mid + [Footer] == first + rest + [Footer];
    JoinAppend(first + rest, [Footer]);
    JoinAppend(first, rest);
    ReplaceCharAppend(Join(first) + Join(rest), Join([Footer]), '\n', "\r\n");
    ReplaceCharAppend(Join(first), Join(rest), '\n', "\r\n");
    CrlfLine(Header[0]);
    CrlfLine(Footer);
  }

  lemma LayoutFramed(session: Date -> Option<TimeRange>, lo: Date, n: int,
                     events: map<Date, seq<CalendarEvent>>, order: seq<Date>,
                     training: (Date, TimeRange) -> seq<string>,
                     custom: (Date, nat, CalendarEvent) -> seq<string>)
    requires lo <= n <= LastDay + 1
    requires forall i :: 0 <= i < |order| ==> order[i] in events
    ensures var t := Crlf(Join(Layout(session, lo, n, events, order, training, custom)));
      |t| >= 32 && t[..17] == "BEGIN:VCALENDAR\r\n" && t[|t| - 15..] == "END:VCALENDAR\r\n"
  {
    var a, b := TrainingLines(session, lo, n, training), MapLines(events, order, custom);
    assert Header + a + b + [Footer] == Header + (a + b) + [Footer];
    FramedText(a + b);
  }

  /** The exported text starts with `BEGIN:VCALENDAR` and ends with `END:VCALENDAR`, each on a CRLF line. */
  lemma IcsTextFrame(s: StateData, env: Env, order: seq<Date>)
    requires s.HasRange()
    requires forall i :: 0 <= i < |order| ==> order[i] in s.events
    ensures var t := IcsText(s, env, order);
      |t| >= 32 && t[..17] == "BEGIN:VCALENDAR\r\n" && t[|t| - 15..] == "END:VCALENDAR\r\n"
  {
    LayoutFramed(Sessions(s), s.MinDate().value, s.MaxDate().value + 1, s.events, order, TrainingBlock(env), CustomBlock(env));
  }
}
