/**
 * The state-changing handlers of the yearly calendar dialog and its small
 * formatting helpers: the weekday check boxes, the event editor's save
 * button, the two ways of deleting events, "begin range here", the drag
 * that marks a range, the Sunday-first column index and the minute texts.
 * Rendering, styling and the windows themselves are not modelled; each
 * handler is the change it makes to the program state.
 */
module Dialog {
  import opened Wrappers
  import opened Text
  import opened Calendar
  import opened TimeRanges
  import opened Events
  import opened Program
  import Ics

  // ------------------------------------------------------------ event lists

  /** The sort key of the event list: `a.time().start()`. */
  function StartTime(e: CalendarEvent): int {
    e.time.start
  }

  /** Ordered by key, as `Comparator.comparing(key)` orders. */
  predicate SortedBy<T>(xs: seq<T>, key: T -> int) {
    forall i, j :: 0 <= i < j < |xs| ==> key(xs[i]) <= key(xs[j])
  }

  predicate SortedByStart(xs: seq<CalendarEvent>) {
    SortedBy(xs, StartTime)
  }

  /** The elements of xs whose key is t, in their order in xs. */
  function KeyedAt<T>(xs: seq<T>, key: T -> int, t: int): seq<T> {
    if xs == [] then []
    else KeyedAt(xs[..|xs| - 1], key, t) + (if key(xs[|xs| - 1]) == t then [xs[|xs| - 1]] else [])
  }

  lemma {:induction false} KeyedAtAppend<T>(a: seq<T>, b: seq<T>, key: T -> int, t: int)
    ensures KeyedAt(a + b, key, t) == KeyedAt(a, key, t) + KeyedAt(b, key, t)
    decreases |b|
  {
    if b == [] {
      assert a + b == a;
    } else {
      var b' := b[..|b| - 1];
      assert (a + b)[..|a + b| - 1] == a + b';
      KeyedAtAppend(a, b', key, t);
    }
  }

  /** `List.remove(Object)`: drops the first element equal to x, if there is one. */
  function RemoveFirst<T(==)>(xs: seq<T>, x: T): (r: seq<T>)
    ensures multiset(r) == multiset(xs) - multiset{x}
    ensures x !in xs ==> r == xs
  {
    if xs == [] then []
    else if xs[0] == x then
      assert xs == [xs[0]] + xs[1..];
      xs[1..]
    else
      assert xs == [xs[0]] + xs[1..];
      [xs[0]] + RemoveFirst(xs[1..], x)
  }

  /** The position of the first element equal to x. */
  function FirstIndex<T(==)>(xs: seq<T>, x: T): (i: nat)
    requires x in xs
    ensures i < |xs| && xs[i] == x && x !in xs[..i]
  {
    if xs[0] == x then 0
    else
      var i := 1 + FirstIndex(xs[1..], x);
      assert xs[..i] == [xs[0]] + xs[1..][..i - 1];
      i
  }

  /** A non-empty prefix is the head followed by a prefix of the tail. */
  lemma PrefixOfCons<T>(xs: seq<T>, i: nat)
    requires 0 < i < |xs|
    ensures xs[..i] == [xs[0]] + xs[1..][..i - 1]
    ensures xs[..i] + xs[i + 1..] == [xs[0]] + (xs[1..][..i - 1] + xs[1..][i..])
  {
    assert xs[i + 1..] == xs[1..][i..];
  }

  /** What `remove` takes out is the first occurrence: everything before it and after it stays, in order. */
  lemma {:induction false} RemoveFirstAt<T>(xs: seq<T>, x: T, i: nat)
    requires i < |xs| && xs[i] == x && x !in xs[..i]
    ensures RemoveFirst(xs, x) == xs[..i] + xs[i + 1..]
  {
    if i == 0 {
      assert xs[..0] + xs[1..] == xs[1..];
    } else {
      PrefixOfCons(xs, i);
      assert xs[0] != x;
      RemoveFirstAt(xs[1..], x, i - 1);
    }
  }

  /** Dropping the element at i keeps a list ordered. */
  lemma DropSorted<T>(xs: seq<T>, i: nat, key: T -> int)
    requires SortedBy(xs, key) && i < |xs|
    ensures SortedBy(xs[..i] + xs[i + 1..], key)
  {
    var r := xs[..i] + xs[i + 1..];
    forall p, q | 0 <= p < q < |r| ensures key(r[p]) <= key(r[q]) {
      if p < i {
        assert r[p] == xs[p];
      } else {
        assert r[p] == xs[p + 1];
      }
      if q < i {
        assert r[q] == xs[q];
      } else {
        assert r[q] == xs[q + 1];
      }
    }
  }

  /** Removing an element keeps a list ordered. */
  lemma RemoveFirstSorted<T>(xs: seq<T>, x: T, key: T -> int)
    requires SortedBy(xs, key)
    ensures SortedBy(RemoveFirst(xs, x), key)
  {
    if x in xs {
      var i := FirstIndex(xs, x);
      RemoveFirstAt(xs, x, i);
      DropSorted(xs, i, key);
    }
  }

  /** One step of a stable insertion sort: x goes after every element whose key is no larger. */
  function Insert<T>(ys: seq<T>, x: T, key: T -> int): seq<T>
    decreases |ys|
  {
    if ys == [] || key(ys[|ys| - 1]) <= key(x) then ys + [x]
    else Insert(ys[..|ys| - 1], x, key) + [ys[|ys| - 1]]
  }

  lemma {:induction false} InsertPermutes<T>(ys: seq<T>, x: T, key: T -> int)
    ensures multiset(Insert(ys, x, key)) == multiset(ys) + multiset{x}
    decreases |ys|
  {
    if !(ys == [] || key(ys[|ys| - 1]) <= key(x)) {
      var ys' := ys[..|ys| - 1];
      InsertPermutes(ys', x, key);
      assert ys == ys' + [ys[|ys| - 1]];
    }
  }

  lemma {:induction false} InsertSorted<T>(ys: seq<T>, x: T, key: T -> int)
    requires SortedBy(ys, key)
    ensures SortedBy(Insert(ys, x, key), key)
    decreases |ys|
  {
    var r := Insert(ys, x, key);
    if ys == [] || key(ys[|ys| - 1]) <= key(x) {
      assert r == ys + [x];
      forall i, j | 0 <= i < j < |r| ensures key(r[i]) <= key(r[j]) {
        if j == |ys| && i < |ys| - 1 {
          assert key(ys[i]) <= key(ys[|ys| - 1]);
        }
      }
    } else {
      var ys', last := ys[..|ys| - 1], ys[|ys| - 1];
      var head := Insert(ys', x, key);
      InsertSorted(ys', x, key);
      InsertPermutes(ys', x, key);
      forall e | e in head ensures key(e) <= key(last) {
        assert e in multiset(ys') + multiset{x};
        if e in multiset(ys') {
          var k :| 0 <= k < |ys'| && ys'[k] == e;
          assert ys[k] == e;
        }
      }
      forall i, j | 0 <= i < j < |r| ensures key(r[i]) <= key(r[j]) {
        if j == |head| {
          assert r[i] == head[i] && r[i] in head;
        } else {
          assert r[i] == head[i] && r[j] == head[j];
        }
      }
    }
  }

  /** The group of a one-element sequence. */
  lemma KeyedAtSingle<T>(x: T, key: T -> int, t: int)
    ensures KeyedAt([x], key, t) == if key(x) == t then [x] else []
  {
    assert [x][..0] == [];
  }

  /** Inserting x adds x to the elements with its key and changes no other group. */
  lemma {:induction false} InsertStable<T>(ys: seq<T>, x: T, key: T -> int, t: int)
    ensures KeyedAt(Insert(ys, x, key), key, t) == KeyedAt(ys, key, t) + (if key(x) == t then [x] else [])
    decreases |ys|
  {
    KeyedAtSingle(x, key, t);
    if ys == [] || key(ys[|ys| - 1]) <= key(x) {
      KeyedAtAppend(ys, [x], key, t);
    } else {
      var ys', last := ys[..|ys| - 1], ys[|ys| - 1];
      InsertStable(ys', x, key, t);
      KeyedAtSingle(last, key, t);
      KeyedAtAppend(Insert(ys', x, key), [last], key, t);
      GroupsCommute(KeyedAt(ys', key, t), KeyedAt([x], key, t), KeyedAt([last], key, t), key(x) == t, key(last) == t);
    }
  }

  /** Two groups of which at most one is non-empty may be appended in either order. */
  lemma GroupsCommute<T>(a: seq<T>, x: seq<T>, l: seq<T>, px: bool, pl: bool)
    requires px ==> !pl
    requires !px ==> x == []
    requires !pl ==> l == []
    ensures a + x + l == a + l + x
  {
    if x == [] {
      assert a + x == a && a + l + x == a + l;
    } else {
      assert a + l == a && a + x + l == a + x;
    }
  }

  /** Insertion sort by key. */
  function SortBy<T>(xs: seq<T>, key: T -> int): seq<T> {
    if xs == [] then [] else Insert(SortBy(xs[..|xs| - 1], key), xs[|xs| - 1], key)
  }

  /** The sort yields an ordered permutation that keeps elements with equal keys in their order. */
  lemma {:induction false} SortByIsStableSort<T>(xs: seq<T>, key: T -> int)
    ensures SortedBy(SortBy(xs, key), key)
    ensures multiset(SortBy(xs, key)) == multiset(xs)
    ensures forall t :: KeyedAt(SortBy(xs, key), key, t) == KeyedAt(xs, key, t)
  {
    SortBySorted(xs, key);
    SortByPermutes(xs, key);
    SortByStable(xs, key);
  }

  lemma {:induction false} SortBySorted<T>(xs: seq<T>, key: T -> int)
    ensures SortedBy(SortBy(xs, key), key)
  {
    if xs != [] {
      SortBySorted(xs[..|xs| - 1], key);
      InsertSorted(SortBy(xs[..|xs| - 1], key), xs[|xs| - 1], key);
    }
  }

  lemma {:induction false} SortByPermutes<T>(xs: seq<T>, key: T -> int)
    ensures multiset(SortBy(xs, key)) == multiset(xs)
  {
    if xs != [] {
      var xs', last := xs[..|xs| - 1], xs[|xs| - 1];
      SortByPermutes(xs', key);
      InsertPermutes(SortBy(xs', key), last, key);
      assert xs == xs' + [last];
    }
  }

  lemma {:induction false} SortByStable<T>(xs: seq<T>, key: T -> int)
    ensures forall t :: KeyedAt(SortBy(xs, key), key, t) == KeyedAt(xs, key, t)
  {
    if xs != [] {
      var xs', last := xs[..|xs| - 1], xs[|xs| - 1];
      SortByStable(xs', key);
      InsertStableAll(SortBy(xs', key), last, key);
      forall t ensures KeyedAt(SortBy(xs, key), key, t) == KeyedAt(xs, key, t) {
        assert KeyedAt(xs, key, t) == KeyedAt(xs', key, t) + (if key(last) == t then [last] else []);
      }
    }
  }

  /** `InsertStable` for every key at once. */
  lemma InsertStableAll<T>(ys: seq<T>, x: T, key: T -> int)
    ensures forall t :: KeyedAt(Insert(ys, x, key), key, t) == KeyedAt(ys, key, t) + (if key(x) == t then [x] else [])
  {
    forall t ensures KeyedAt(Insert(ys, x, key), key, t) == KeyedAt(ys, key, t) + (if key(x) == t then [x] else []) {
      InsertStable(ys, x, key, t);
    }
  }

  /** `List.sort` with the start-time comparator, which Java guarantees to be stable. */
  function SortByStart(xs: seq<CalendarEvent>): seq<CalendarEvent> {
    SortBy(xs, StartTime)
  }

  /** The list a date holds after the save button: the edited event removed, the new one appended, the whole sorted. */
  function EditedList(xs: seq<CalendarEvent>, existing: Option<CalendarEvent>, ev: CalendarEvent): seq<CalendarEvent> {
    SortByStart(Kept(xs, existing) + [ev])
  }

  /** The list once the edited event, if any, is removed. */
  function Kept(xs: seq<CalendarEvent>, existing: Option<CalendarEvent>): seq<CalendarEvent> {
    if existing.Some? then RemoveFirst(xs, existing.value) else xs
  }

  /** Multiset of an optional element. */
  function Optionally(x: Option<CalendarEvent>): multiset<CalendarEvent> {
    if x.Some? then multiset{x.value} else multiset{}
  }

  /**
   * After a save the date's list holds the new event, has lost one copy of
   * the edited event (when it held one) and nothing else, is ordered by start
   * time, and keeps events with equal start times in their old order, the
   * new event last among them.
   */
  lemma EditedListIs(xs: seq<CalendarEvent>, existing: Option<CalendarEvent>, ev: CalendarEvent)
    ensures var r := EditedList(xs, existing, ev);
      && ev in r
      && multiset(r) == multiset(xs) - Optionally(existing) + multiset{ev}
      && SortedByStart(r)
    ensures forall t :: KeyedAt(EditedList(xs, existing, ev), StartTime, t)
                        == KeyedAt(Kept(xs, existing), StartTime, t) + (if ev.time.start == t then [ev] else [])
  {
    var before := Kept(xs, existing) + [ev];
    SortByIsStableSort(before, StartTime);
    assert ev in multiset(before);
    forall t ensures KeyedAt(before, StartTime, t) == KeyedAt(Kept(xs, existing), StartTime, t) + (if ev.time.start == t then [ev] else []) {
      KeyedAtAppend(Kept(xs, existing), [ev], StartTime, t);
      assert [ev][..0] == [];
    }
  }

  /** `remove(existente)`, `add(ev)` and `sort` on the date's list, one after the other. */
  method EditList(before: seq<CalendarEvent>, existing: Option<CalendarEvent>, ev: CalendarEvent)
    returns (list: seq<CalendarEvent>)
    ensures list == EditedList(before, existing, ev)
    ensures ev in list && SortedByStart(list)
  {
    EditedListIs(before, existing, ev);
    list := before;
    if existing.Some? {
      list := RemoveFirst(list, existing.value);
    }
    list := list + [ev];
    list := SortByStart(list);
  }

  /** Every date of the map holds an ordered list. */
  predicate AllSorted(events: map<Date, seq<CalendarEvent>>) {
    forall d :: d in events ==> SortedByStart(events[d])
  }

  /** No date of the map holds an empty list. */
  predicate NoEmptyLists(events: map<Date, seq<CalendarEvent>>) {
    forall d :: d in events ==> events[d] != []
  }

  /** `LocalTime.of(h, m)` reads back the hour and minute it was given. */
  lemma ClockOf(h: int, m: int)
    requires 0 <= h < 24 && 0 <= m < 60
    ensures Hour(TimeOf(h, m, 0)) == h && Minute(TimeOf(h, m, 0)) == m && Second(TimeOf(h, m, 0)) == 0
  {
    var t := TimeOf(h, m, 0);
    assert t == (h * 60 + m) * 60;
    assert t / 60 == h * 60 + m;
    assert t / 3600 == h;
  }

  /** The event the save button builds from the form: trimmed texts and the times from the four spinners. */
  function FormEvent(title: string, description: string, location: string,
                     hStart: int, mStart: int, hEnd: int, mEnd: int, remind: bool): (ev: CalendarEvent)
    requires 0 <= hStart < 24 && 0 <= mStart < 60 && 0 <= hEnd < 24 && 0 <= mEnd < 60
    ensures Hour(ev.time.start) == hStart && Minute(ev.time.start) == mStart && Second(ev.time.start) == 0
    ensures Hour(ev.time.end) == hEnd && Minute(ev.time.end) == mEnd && Second(ev.time.end) == 0
    ensures ev.title == Trim(title) && ev.description == Trim(description) && ev.location == Trim(location)
    ensures ev.reminder == remind
  {
    ClockOf(hStart, mStart);
    ClockOf(hEnd, mEnd);
    CalendarEvent(Trim(title), Trim(description), Trim(location),
                  TimeRange(TimeOf(hStart, mStart, 0), TimeOf(hEnd, mEnd, 0)), remind)
  }

  /** The events after the delete button: the selected event removed, and the date dropped once its list is empty. */
  function AfterDelete(events: map<Date, seq<CalendarEvent>>, d: Date, sel: CalendarEvent): map<Date, seq<CalendarEvent>> {
    var rest := RemoveFirst(if d in events then events[d] else [], sel);
    if rest == [] then events - {d} else events[d := rest]
  }

  /**
   * Deleting one event keeps every other date's list, and leaves d's list one
   * copy of sel shorter, d staying in the map exactly when something is left.
   */
  lemma AfterDeleteIs(events: map<Date, seq<CalendarEvent>>, d: Date, sel: CalendarEvent)
    ensures var r := AfterDelete(events, d, sel);
      && (forall e :: e != d ==> (e in r <==> e in events) && (e in r ==> r[e] == events[e]))
      && (d in r <==> d in events && RemoveFirst(events[d], sel) != [])
      && (d in r ==> multiset(r[d]) == multiset(events[d]) - multiset{sel})
  {
  }

  /** Updating one date with an ordered, non-empty list keeps every list ordered and non-empty. */
  lemma UpdateKeepsLists(events: map<Date, seq<CalendarEvent>>, d: Date, xs: seq<CalendarEvent>)
    requires SortedByStart(xs)
    ensures AllSorted(events) ==> AllSorted(events[d := xs]) && AllSorted(events - {d})
    ensures NoEmptyLists(events) && xs != [] ==> NoEmptyLists(events[d := xs]) && NoEmptyLists(events - {d})
  {
  }

  /** Deleting keeps the lists ordered and non-empty. */
  lemma AfterDeleteKeepsLists(events: map<Date, seq<CalendarEvent>>, d: Date, sel: CalendarEvent)
    ensures AllSorted(events) ==> AllSorted(AfterDelete(events, d, sel))
    ensures NoEmptyLists(events) ==> NoEmptyLists(AfterDelete(events, d, sel))
  {
    var rest := RemoveFirst(if d in events then events[d] else [], sel);
    if AllSorted(events) && d in events {
      RemoveFirstSorted(events[d], sel, StartTime);
    }
    if SortedByStart(rest) {
      UpdateKeepsLists(events, d, rest);
    }
  }

  // --------------------------------------------------------- weekday filter

  /** The state after unticking weekday w: out of the filter and out of the schedule. */
  function Unticked(s: StateData, w: Weekday): StateData {
    s.(trainingDays := s.trainingDays - {w}, timeByDay := s.timeByDay - {w})
  }

  /**
   * Unticking w: no date of weekday w gets a training session any more; a date
   * of weekday w stays selected only when pinned, or when the filter is left
   * empty and the date is an in-range date not forced off.
   */
  lemma UntickedWeekday(s: StateData, w: Weekday, d: Date)
    requires WeekdayOf(d) == w
    ensures Ics.SessionOf(Unticked(s, w), d) == None
    ensures Unticked(s, w).IsSelected(d) <==>
      d in s.forceOn || (d !in s.forceOff && s.IsInsideRange(d) && s.trainingDays - {w} == {})
  {
  }

  /**
   * Ticking w: an in-range date of weekday w that is not forced off becomes
   * selected. Other weekdays keep their selection unless the filter was empty,
   * in which case they lose it unless pinned.
   */
  lemma TickedWeekday(s: StateData, w: Weekday, d: Date)
    ensures var t := s.(trainingDays := s.trainingDays + {w});
      && (WeekdayOf(d) == w ==> (t.IsSelected(d) <==> d in s.forceOn || (d !in s.forceOff && s.IsInsideRange(d))))
      && (WeekdayOf(d) != w && s.trainingDays != {} ==> t.IsSelected(d) == s.IsSelected(d))
      && (WeekdayOf(d) != w && s.trainingDays == {} ==> (t.IsSelected(d) <==> d in s.forceOn))
  {
  }

  // ------------------------------------------------------------ drag preview

  /** `pMin`: the earlier preview end; on a tie, the end. */
  function PMin(previewStart: Date, previewEnd: Date): (r: Date)
    ensures r == previewStart || r == previewEnd
    ensures r <= previewStart && r <= previewEnd
  {
    if previewStart < previewEnd then previewStart else previewEnd
  }

  /** `pMax`: the later preview end; on a tie, the start. */
  function PMax(previewStart: Date, previewEnd: Date): (r: Date)
    ensures r == previewStart || r == previewEnd
    ensures r >= previewStart && r >= previewEnd
  {
    if previewEnd > previewStart then previewEnd else previewStart
  }

  /**
   * The range a drag stores is ordered, consists of the two dates the drag
   * touched, and does not depend on the direction of the drag; the state's
   * own `minDate`/`maxDate` then read back the stored anchors.
   */
  lemma DragRange(s: StateData, a: Date, b: Date)
    ensures PMin(a, b) <= PMax(a, b)
    ensures {PMin(a, b), PMax(a, b)} == {a, b}
    ensures PMin(a, b) == PMin(b, a) && PMax(a, b) == PMax(b, a)
    ensures var t := s.(start := Some(PMin(a, b)), end := Some(PMax(a, b)));
      t.MinDate() == Some(PMin(a, b)) && t.MaxDate() == Some(PMax(a, b))
  {
  }

  // -------------------------------------------------------------- formatting

  /** `DayOfWeek.getValue() % 7`: the column of a weekday in a week that begins on Sunday. */
  function MapSundayZero(w: Weekday): (r: int)
    ensures 0 <= r < 7
    ensures r == 0 <==> w == Sunday
    ensures w != Sunday ==> r == WeekdayValue(w)
  {
    WeekdayValue(w) % 7
  }

  /** 1970-01-04, epoch day 3, was a Sunday: the column counts the days since the last Sunday. */
  lemma SundayZeroColumn(d: CivilDay)
    ensures MapSundayZero(WeekdayOf(d)) == (d + 4) % 7
  {
    var k := (d + 3) % 7;
    assert (d + 4) % 7 == (k + 1) % 7;
  }

  /** Java's `a % b` for b > 0: the remainder takes the sign of the dividend. */
  function Rem(a: int, b: int): (r: int)
    requires b > 0
    ensures a >= 0 ==> r == a % b
    ensures a == Quot(a, b) * b + r
    ensures -b < r < b
    ensures a < 0 ==> r <= 0
  {
    a - Quot(a, b) * b
  }

  /** `String.format("%02d", n)`: at least two digits, zero-padded after a minus sign. */
  function Pad2(n: int): (r: string)
    ensures n >= 0 ==> AllDigits(r) && DigitsValue(r) == n && |r| >= 2
    ensures 0 <= n < 100 ==> |r| == 2
    ensures n >= 100 ==> r[0] != '0'
    ensures n < 0 ==> r == IntToString(n)
  {
    if n >= 0 then Decimal(n, 2) else "-" + Decimal(-n, 1)
  }

  /** `fmtHHMM`: hours and minutes as `%02d:%02d`. */
  function FmtHHMM(minutes: int): (r: string)
    ensures 0 <= minutes < 6000 ==> |r| == 5 && r[2] == ':'
    ensures minutes >= 6000 ==> r != [] && r[0] != '0'
  {
    Pad2(Quot(minutes, 60)) + ":" + Pad2(Rem(minutes, 60))
  }

  /** The text `fmtHM` builds from the hour and minute parts. */
  function HMText(h: int, m: int): string {
    if h == 0 then IntToString(m) + " m"
    else if m == 0 then IntToString(h) + " h"
    else IntToString(h) + " h " + IntToString(m) + " m"
  }

  /** A decimal numeral without leading zeros. */
  predicate CanonicalDigits(d: string) {
    |d| >= 1 && AllDigits(d) && (|d| == 1 || d[0] != '0')
  }

  /** s is the numeral of v without leading zeros, followed by the unit u. */
  predicate UnitText(s: string, v: int, u: string) {
    && |s| > |u| && s[|s| - |u|..] == u
    && CanonicalDigits(s[..|s| - |u|]) && DigitsValue(s[..|s| - |u|]) == v
  }

  /**
   * `fmtHM`: "M m" below an hour, "H h" on whole hours, "H h M m" otherwise,
   * every number written without leading zeros.
   */
  function FmtHM(minutes: int): (r: string)
    ensures |r| >= 3
    ensures 0 <= minutes < 60 ==> UnitText(r, minutes, " m")
    ensures minutes >= 60 && minutes % 60 == 0 ==> UnitText(r, minutes / 60, " h")
    ensures minutes >= 60 && minutes % 60 != 0 ==>
      var k := DigitRun(r);
      && k + 3 < |r| && r[k + 2] == ' '
      && UnitText(r[..k + 2], minutes / 60, " h") && UnitText(r[k + 3..], minutes % 60, " m")
  {
    var h, m := Quot(minutes, 60), Rem(minutes, 60);
    if minutes >= 0 then
      HMTextForms(h, m);
      HMText(h, m)
    else
      HMText(h, m)
  }

  lemma UnitTextOf(d: string, v: int, u: string, s: string)
    requires CanonicalDigits(d) && DigitsValue(d) == v && s == d + u
    ensures UnitText(s, v, u)
  {
    assert s[|s| - |u|..] == u && s[..|s| - |u|] == d;
  }

  /** Which of the three forms `HMText` writes, for a non-negative total. */
  lemma HMTextForms(h: int, m: int)
    requires h >= 0 && 0 <= m < 60
    ensures h == 0 ==> UnitText(HMText(h, m), m, " m")
    ensures h > 0 && m == 0 ==> UnitText(HMText(h, m), h, " h")
    ensures h > 0 && m > 0 ==>
      var r := HMText(h, m);
      var k := DigitRun(r);
      && k + 3 < |r| && r[k + 2] == ' '
      && UnitText(r[..k + 2], h, " h") && UnitText(r[k + 3..], m, " m")
  {
    var H, M := IntToString(h), IntToString(m);
    var r := HMText(h, m);
    if h == 0 {
      UnitTextOf(M, m, " m", r);
    } else if m == 0 {
      UnitTextOf(H, h, " h", r);
    } else {
      BothUnits(H, h, M, m, r);
    }
  }

  /** `H h M m` splits at the end of its hour digits into `H h` and `M m`. */
  lemma BothUnits(H: string, h: int, M: string, m: int, r: string)
    requires CanonicalDigits(H) && DigitsValue(H) == h
    requires CanonicalDigits(M) && DigitsValue(M) == m
    requires r == H + " h " + M + " m"
    ensures var k := DigitRun(r);
      && k + 3 < |r| && r[k + 2] == ' '
      && UnitText(r[..k + 2], h, " h") && UnitText(r[k + 3..], m, " m")
  {
    UnitsLayout(H, M, r);
    DigitRunOf(H, " h " + M + " m");
    UnitTextOf(H, h, " h", r[..|H| + 2]);
    UnitTextOf(M, m, " m", r[|H| + 3..]);
  }

  /** Where the parts of `H h M m` sit. */
  lemma UnitsLayout(H: string, M: string, r: string)
    requires r == H + " h " + M + " m"
    ensures r == H + (" h " + M + " m")
    ensures |r| == |H| + |M| + 5 && r[|H| + 2] == ' '
    ensures r[..|H| + 2] == H + " h" && r[|H| + 3..] == M + " m"
  {
    assert r == (H + " h") + (" " + (M + " m"));
  }

  /** Reads `H:MM` back, with H any number of digits. */
  function ParseHHMM(s: string): Option<int> {
    if |s| >= 4 && s[|s| - 3] == ':' && AllDigits(s[..|s| - 3]) && AllDigits(s[|s| - 2..])
       && DigitsValue(s[|s| - 2..]) < 60
    then Some(DigitsValue(s[..|s| - 3]) * 60 + DigitsValue(s[|s| - 2..]))
    else None
  }

  lemma FmtHHMMRoundTrip(minutes: int)
    requires minutes >= 0
    ensures ParseHHMM(FmtHHMM(minutes)) == Some(minutes)
  {
    var hh, mm := Pad2(minutes / 60), Pad2(minutes % 60);
    var s := hh + ":" + mm;
    assert |mm| == 2;
    assert s[..|s| - 3] == hh && s[|s| - 2..] == mm && s[|s| - 3] == ':';
  }

  /** The length of the run of digits that s begins with. */
  function DigitRun(s: string): (k: nat)
    ensures k <= |s| && AllDigits(s[..k])
    ensures k < |s| ==> !IsDigit(s[k])
  {
    if s == [] || !IsDigit(s[0]) then 0
    else
      var k := 1 + DigitRun(s[1..]);
      assert s[..k] == [s[0]] + s[1..][..k - 1];
      k
  }

  lemma {:induction false} DigitRunOf(a: string, b: string)
    requires AllDigits(a)
    requires b != [] && !IsDigit(b[0])
    ensures DigitRun(a + b) == |a|
  {
    if a != [] {
      assert (a + b)[1..] == a[1..] + b;
      DigitRunOf(a[1..], b);
    }
  }

  /** Reads `M` or `H h M`, the text before a closing " m". */
  function ParseMinutesText(body: string): Option<int> {
    if AllDigits(body) then Some(DigitsValue(body)) else ParseHoursMinutes(body, DigitRun(body))
  }

  /** `H h M m` without its unit, where the hour digits run up to k. */
  function ParseHoursMinutes(body: string, k: nat): Option<int>
    requires k <= |body| && AllDigits(body[..k])
  {
    if 1 <= k && k + 3 < |body| && body[k..k + 3] == " h " && AllDigits(body[k + 3..]) then
      Some(DigitsValue(body[..k]) * 60 + DigitsValue(body[k + 3..]))
    else None
  }

  /** Reads `M m`, `H h` and `H h M m` back to a number of minutes. */
  function ParseHM(s: string): Option<int> {
    if |s| >= 3 && s[|s| - 2..] == " h" && AllDigits(s[..|s| - 2]) then
      Some(DigitsValue(s[..|s| - 2]) * 60)
    else if |s| >= 3 && s[|s| - 2..] == " m" then
      ParseMinutesText(s[..|s| - 2])
    else None
  }

  lemma HoursTextShape(H: string, M: string, body: string)
    requires AllDigits(H) && AllDigits(M) && |M| >= 1
    requires body == H + (" h " + M)
    ensures body[..|H|] == H && body[|H|..|H| + 3] == " h " && body[|H| + 3..] == M
    ensures !AllDigits(body) && DigitRun(body) == |H| && |H| + 3 < |body|
  {
    Fields3(body, H, " h ", M);
    DigitRunOf(H, " h " + M);
  }

  /** Where the three parts of a concatenation sit. */
  lemma Fields3(s: string, a: string, b: string, c: string)
    requires s == a + (b + c)
    ensures s[..|a|] == a && s[|a|..|a| + |b|] == b && s[|a| + |b|..] == c
  {
    assert s[|a|..] == b + c;
  }

  lemma ParseHoursText(H: string, M: string, body: string)
    requires AllDigits(H) && AllDigits(M) && |H| >= 1 && |M| >= 1
    requires body == H + (" h " + M)
    ensures ParseMinutesText(body) == Some(DigitsValue(H) * 60 + DigitsValue(M))
  {
    HoursTextShape(H, M, body);
    MinutesTextIsHoursMinutes(body, |H|);
    HoursMinutesOf(H, M, body);
  }

  lemma ParseHoursAndMinutes(H: string, M: string, s: string)
    requires AllDigits(H) && AllDigits(M) && |H| >= 1 && |M| >= 1
    requires s == H + " h " + M + " m"
    ensures ParseHM(s) == Some(DigitsValue(H) * 60 + DigitsValue(M))
  {
    var body := H + (" h " + M);
    assert s[|s| - 2..] == " m" && s[..|s| - 2] == body;
    assert s[|s| - 2..] != " h";
    ParseHoursText(H, M, body);
  }

  /** Text that is not all digits is read as `H h M`, with the hour digits running up to k. */
  lemma MinutesTextIsHoursMinutes(body: string, k: nat)
    requires !AllDigits(body) && k == DigitRun(body)
    ensures k <= |body| && AllDigits(body[..k])
    ensures ParseMinutesText(body) == ParseHoursMinutes(body, k)
  {
  }

  lemma HoursMinutesOf(H: string, M: string, body: string)
    requires AllDigits(H) && AllDigits(M) && |H| >= 1 && |M| >= 1
    requires body == H + (" h " + M)
    ensures AllDigits(body[..|H|])
    ensures ParseHoursMinutes(body, |H|) == Some(DigitsValue(H) * 60 + DigitsValue(M))
  {
    Fields3(body, H, " h ", M);
  }

  lemma ParseMinutes(M: string)
    requires AllDigits(M) && |M| >= 1
    ensures ParseHM(M + " m") == Some(DigitsValue(M))
  {
    var s := M + " m";
    assert s[|s| - 2..] == " m" && s[..|s| - 2] == M;
  }

  lemma ParseHours(H: string)
    requires AllDigits(H) && |H| >= 1
    ensures ParseHM(H + " h") == Some(DigitsValue(H) * 60)
  {
    var s := H + " h";
    assert s[|s| - 2..] == " h" && s[..|s| - 2] == H;
  }

  lemma HMTextParses(h: nat, m: nat)
    requires m < 60
    ensures ParseHM(HMText(h, m)) == Some(h * 60 + m)
  {
    var H, M := IntToString(h), IntToString(m);
    if h == 0 {
      ParseMinutes(M);
    } else if m == 0 {
      ParseHours(H);
    } else {
      ParseHoursAndMinutes(H, M, HMText(h, m));
    }
  }

  /** A non-negative total reads back from its `fmtHM` text. */
  lemma FmtHMRoundTrip(minutes: int)
    requires minutes >= 0
    ensures ParseHM(FmtHM(minutes)) == Some(minutes)
  {
    var h, m := minutes / 60, minutes % 60;
    assert Quot(minutes, 60) == h && Rem(minutes, 60) == m;
    HMTextParses(h, m);
    assert h * 60 + m == minutes;
  }

  // ------------------------------------------------------------------ dialog

  /** The dialog's own state beside the program state it edits. */
  class CalendarDialog {
    const state: ProgramState
    /** A drag over the day buttons is in progress. */
    var dragging: bool
    var previewStart: Option<Date>
    var previewEnd: Option<Date>
    /** Set while a saved programme is being loaded, to keep the schedule picker closed. */
    var loadingFromFile: bool

    /** While dragging, both preview ends are known. */
    predicate Valid()
      reads this
    {
      dragging ==> previewStart.Some? && previewEnd.Some?
    }

    constructor (state: ProgramState)
      ensures Valid() && this.state == state
      ensures !dragging && previewStart == None && previewEnd == None && !loadingFromFile
    {
      this.state := state;
      dragging := false;
      previewStart := None;
      previewEnd := None;
      loadingFromFile := false;
    }

    /**
     * A weekday check box changed. Ticked: the weekday joins the filter and,
     * unless a file is being loaded, the schedule picker opens; `picked` is
     * the window confirmed there, or None when it was closed. Unticked: the
     * weekday leaves the filter and its window is dropped.
     */
    method OnWeekdayToggled(w: Weekday, ticked: bool, picked: Option<TimeRange>)
      modifies state
      ensures ticked ==> state.trainingDays == old(state.trainingDays) + {w}
      ensures ticked && !loadingFromFile && picked.Some? ==> state.timeByDay == old(state.timeByDay)[w := picked.value]
      ensures ticked && (loadingFromFile || picked.None?) ==> state.timeByDay == old(state.timeByDay)
      ensures !ticked ==> state.Data() == Unticked(old(state.Data()), w)
      ensures state.Data() == old(state.Data()).(trainingDays := state.trainingDays, timeByDay := state.timeByDay)
    {
      if ticked {
        state.trainingDays := state.trainingDays + {w};
        if !loadingFromFile && picked.Some? {
          state.timeByDay := state.timeByDay[w := picked.value];
        }
      } else {
        state.trainingDays := state.trainingDays - {w};
        state.timeByDay := state.timeByDay - {w};
      }
    }

    /**
     * The event editor's save button. A title that is blank once trimmed is
     * refused and nothing changes. Otherwise the date's list is created if
     * absent, the edited event (if any) is removed, the new one appended and
     * the list sorted by start time.
     */
    method SaveEvent(date: Date, existing: Option<CalendarEvent>,
                     title: string, description: string, location: string,
                     hStart: int, mStart: int, hEnd: int, mEnd: int, remind: bool)
      returns (saved: bool)
      requires 0 <= hStart < 24 && 0 <= mStart < 60 && 0 <= hEnd < 24 && 0 <= mEnd < 60
      modifies state
      ensures saved <==> Trim(title) != []
      ensures !saved ==> state.Data() == old(state.Data())
      ensures saved ==> state.Data() == old(state.Data()).(events := old(state.events)[date :=
        EditedList(if date in old(state.events) then old(state.events)[date] else [], existing,
                   FormEvent(title, description, location, hStart, mStart, hEnd, mEnd, remind))])
      ensures saved ==> date in state.events && SortedByStart(state.events[date])
      ensures old(AllSorted(state.events)) ==> AllSorted(state.events)
      ensures old(NoEmptyLists(state.events)) ==> NoEmptyLists(state.events)
    {
      var t := Trim(title);
      if t == [] {
        return false;
      }
      var ev := FormEvent(title, description, location, hStart, mStart, hEnd, mEnd, remind);
      PutEdited(date, existing, ev);
      return true;
    }

    /** The map update of the save handler, once the event is built. */
    method PutEdited(date: Date, existing: Option<CalendarEvent>, ev: CalendarEvent)
      modifies state
      ensures state.Data() == old(state.Data()).(events := old(state.events)[date :=
        EditedList(if date in old(state.events) then old(state.events)[date] else [], existing, ev)])
      ensures date in state.events && SortedByStart(state.events[date])
      ensures old(AllSorted(state.events)) ==> AllSorted(state.events)
      ensures old(NoEmptyLists(state.events)) ==> NoEmptyLists(state.events)
    {
      var before := if date in state.events then state.events[date] else [];
      var list := EditList(before, existing, ev);
      UpdateKeepsLists(state.events, date, list);
      state.events := state.events[date := list];
    }

    /**
     * The delete button of the day's event list: without a selection nothing
     * changes; otherwise the selected event is removed and the date dropped
     * once its list is empty.
     */
    method DeleteEvent(date: Date, sel: Option<CalendarEvent>)
      modifies state
      ensures sel.None? ==> state.Data() == old(state.Data())
      ensures sel.Some? ==> state.Data() == old(state.Data()).(events := AfterDelete(old(state.events), date, sel.value))
      ensures old(AllSorted(state.events)) ==> AllSorted(state.events)
      ensures old(NoEmptyLists(state.events)) ==> NoEmptyLists(state.events)
    {
      if sel.None? {
        return;
      }
      AfterDeleteKeepsLists(state.events, date, sel.value);
      var evs := if date in state.events then state.events[date] else [];
      evs := RemoveFirst(evs, sel.value);
      if evs == [] {
        state.events := state.events - {date};
      } else {
        state.events := state.events[date := evs];
      }
    }

    /** "Delete all events of the day": the date leaves the map. */
    method DeleteAllEvents(date: Date)
      modifies state
      ensures date !in state.events
      ensures state.Data() == old(state.Data()).(events := old(state.events) - {date})
      ensures old(AllSorted(state.events)) ==> AllSorted(state.events)
      ensures old(NoEmptyLists(state.events)) ==> NoEmptyLists(state.events)
    {
      UpdateKeepsLists(state.events, date, []);
      state.events := state.events - {date};
    }

    /** "Begin range here": d becomes the start and the end is cleared, so there is no range. */
    method BeginRangeHere(d: Date)
      modifies state
      ensures state.start == Some(d) && state.end == None
      ensures !state.HasRange() && state.MinDate() == None
      ensures state.Data() == old(state.Data()).(start := Some(d), end := None)
    {
      state.start := Some(d);
      state.end := None;
    }

    /** A drag starts on `date`: both preview ends are that date. */
    method OnDragDetected(date: Date)
      modifies this
      ensures Valid() && dragging && previewStart == Some(date) && previewEnd == Some(date)
      ensures loadingFromFile == old(loadingFromFile)
    {
      dragging := true;
      previewStart := Some(date);
      previewEnd := Some(date);
    }

    /** The drag enters `date`: it becomes the moving preview end. */
    method OnDragEntered(date: Date)
      requires Valid()
      modifies this
      ensures Valid()
      ensures old(dragging) ==> dragging && previewStart == old(previewStart) && previewEnd == Some(date)
      ensures !old(dragging) ==> dragging == old(dragging) && previewStart == old(previewStart) && previewEnd == old(previewEnd)
      ensures loadingFromFile == old(loadingFromFile)
    {
      if !dragging {
        return;
      }
      previewEnd := Some(date);
    }

    /**
     * The mouse is released: a drag in progress stores its preview as the
     * range, earlier end first, and the preview is cleared.
     */
    method OnMouseReleased()
      requires Valid()
      modifies this, state
      ensures Valid()
      ensures !old(dragging) ==>
        && state.Data() == old(state.Data())
        && dragging == old(dragging) && previewStart == old(previewStart) && previewEnd == old(previewEnd)
      ensures old(dragging) ==>
        && state.Data() == old(state.Data()).(start := Some(PMin(old(previewStart).value, old(previewEnd).value)),
                                            end := Some(PMax(old(previewStart).value, old(previewEnd).value)))
        && state.start.value <= state.end.value
        && {state.start.value, state.end.value} == {old(previewStart).value, old(previewEnd).value}
        && !dragging && previewStart == None && previewEnd == None
      ensures loadingFromFile == old(loadingFromFile)
    {
      if !dragging {
        return;
      }
      var a := PMin(previewStart.value, previewEnd.value);
      var z := PMax(previewStart.value, previewEnd.value);
      DragRange(state.Data(), previewStart.value, previewEnd.value);
      state.SetRange(Some(a), Some(z));
      dragging := false;
      previewStart := None;
      previewEnd := None;
    }
  }
}
