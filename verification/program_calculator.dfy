/**
 * `ProgramCalculator.calculate`: one pass over the normalised range that
 * counts the selected dates and adds up their scheduled minutes, in total,
 * by calendar month and by program week.
 *
 * The pass is specified by functions over a half-open prefix [lo, n) of the
 * range; the method's loop keeps its accumulators equal to them, and the
 * lemmas below say what those functions mean.
 */
module Calculator {
  import opened Wrappers
  import opened Calendar
  import opened TimeRanges
  import opened Program
  import opened Summaries

  /** Minutes the weekday schedule gives d: its window's length, or 0 without one. */
  function DayMinutes(s: StateData, d: Date): (m: int)
    ensures 0 <= m < 1440
    ensures WeekdayOf(d) !in s.timeByDay ==> m == 0
    ensures WeekdayOf(d) in s.timeByDay ==> m == s.timeByDay[WeekdayOf(d)].Minutes()
  {
    var w := WeekdayOf(d);
    if w in s.timeByDay then s.timeByDay[w].Minutes() else 0
  }

  /** `weekOfProgram`: week 1 holds the seven days starting at lo, week 2 the next seven. */
  function WeekOfProgram(lo: Date, d: Date): (wk: int)
    requires lo <= d
    ensures wk >= 1
    ensures 7 * (wk - 1) <= d - lo < 7 * wk
  {
    (d - lo) / 7 + 1
  }

  /** `weeksInRange`: the days of [lo, hi], inclusive, divided by 7 and rounded up. */
  function WeeksInRange(lo: Date, hi: Date): (w: int)
    requires lo <= hi
    ensures w >= 1
    ensures 7 * (w - 1) < hi - lo + 1 <= 7 * w
  {
    (hi - lo + 1 + 6) / 7
  }

  /** `Map.merge(k, v, Integer::sum)`: v is added to k's entry, which starts at v when absent. */
  function Merge<K>(m: map<K, int>, k: K, v: int): (r: map<K, int>)
    ensures r.Keys == m.Keys + {k}
    ensures r[k] == (if k in m then m[k] else 0) + v
    ensures forall j :: j in m && j != k ==> r[j] == m[j]
  {
    if k in m then m[k := m[k] + v] else m[k := v]
  }

  // ---------------------------------------------------------------------
  // The pass over [lo, n), one date at a time

  /** Number of selected dates in [lo, n). */
  function SelectedCount(s: StateData, lo: Date, n: int): nat
    requires lo <= n <= LastDay + 1
    decreases n - lo
  {
    if n == lo then 0
    else SelectedCount(s, lo, n - 1) + (if s.IsSelected(n - 1) then 1 else 0)
  }

  /** Scheduled minutes of the selected dates in [lo, n). */
  function MinutesTotal(s: StateData, lo: Date, n: int): int
    requires lo <= n <= LastDay + 1
    decreases n - lo
  {
    if n == lo then 0
    else MinutesTotal(s, lo, n - 1) + (if s.IsSelected(n - 1) then DayMinutes(s, n - 1) else 0)
  }

  /** The month of a date: the key of `minByMonth`. */
  function MonthKey(d: Date): YearMonth {
    YearMonthOf(d)
  }

  /** The program week of a date from lo: the key of `minByWeek`. Dates before lo do not occur. */
  function WeekKey(lo: Date): Date -> int {
    (d: Date) => if d < lo then 0 else WeekOfProgram(lo, d)
  }

  /**
   * A map of minutes filled by `merge(key(d), minutes, Integer::sum)` for each
   * selected date d of [lo, n): `minByMonth` with `MonthKey`, `minByWeek` with
   * `WeekKey(lo)`.
   */
  function Totals<K>(s: StateData, lo: Date, n: int, key: Date -> K): map<K, int>
    requires lo <= n <= LastDay + 1
    decreases n - lo
  {
    if n == lo then map[]
    else
      var m := Totals(s, lo, n - 1, key);
      if s.IsSelected(n - 1) then Merge(m, key(n - 1), DayMinutes(s, n - 1)) else m
  }

  /** `weeksWithAny` after the dates of [lo, n). */
  function WeeksTouched(s: StateData, lo: Date, n: int): set<int>
    requires lo <= n <= LastDay + 1
    decreases n - lo
  {
    if n == lo then {}
    else
      var weeks := WeeksTouched(s, lo, n - 1);
      if s.IsSelected(n - 1) then weeks + {WeekOfProgram(lo, n - 1)} else weeks
  }

  /** The summary `calculate` returns for a state with a range. */
  function Summary(s: StateData): ProgramSummary
    requires s.HasRange()
  {
    var lo := s.MinDate().value;
    var hi := s.MaxDate().value;
    ProgramSummary(lo, hi,
      SelectedCount(s, lo, hi + 1),
      MinutesTotal(s, lo, hi + 1),
      WeeksInRange(lo, hi),
      |WeeksTouched(s, lo, hi + 1)|,
      Totals(s, lo, hi + 1, MonthKey),
      Totals(s, lo, hi + 1, WeekKey(lo)))
  }

  /**
   * `calculate`: nothing without a state or a range; otherwise the summary of
   * the range from its earlier to its later anchor.
   */
  method Calculate(state: ProgramState?) returns (r: Option<ProgramSummary>)
    ensures r.None? <==> state == null || !state.HasRange()
    ensures r.Some? ==> r.value == Summary(state.Data())
  {
    if state == null || !state.HasRange() {
      return None;
    }
    // The pass only reads the state, so it works on a snapshot of its fields.
    var s := state.Data();
    var lo := s.MinDate().value;
    var hi := s.MaxDate().value;
    var selectedDays, totalMinutes, minByMonth, minByWeek, weeksWithAny := Pass(s, lo, hi);
    var weeksInRange := (hi as int - lo + 1 + 6) / 7;
    return Some(ProgramSummary(lo, hi, selectedDays, totalMinutes, weeksInRange,
                               |weeksWithAny|, minByMonth, minByWeek));
  }

  /** The loop of `calculate`: every date from lo to hi, inclusive, in order. */
  method Pass(s: StateData, lo: Date, hi: Date)
    returns (selectedDays: int, totalMinutes: int, minByMonth: map<YearMonth, int>,
             minByWeek: map<int, int>, weeksWithAny: set<int>)
    requires lo <= hi
    ensures selectedDays == SelectedCount(s, lo, hi + 1)
    ensures totalMinutes == MinutesTotal(s, lo, hi + 1)
    ensures minByMonth == Totals(s, lo, hi + 1, MonthKey)
    ensures minByWeek == Totals(s, lo, hi + 1, WeekKey(lo))
    ensures weeksWithAny == WeeksTouched(s, lo, hi + 1)
  {
    minByMonth := map[];
    minByWeek := map[];
    weeksWithAny := {};
    selectedDays := 0;
    totalMinutes := 0;

    var d: int := lo;
    while d <= hi
      invariant lo <= d <= hi + 1
      invariant selectedDays == SelectedCount(s, lo, d)
      invariant totalMinutes == MinutesTotal(s, lo, d)
      invariant minByMonth == Totals(s, lo, d, MonthKey)
      invariant minByWeek == Totals(s, lo, d, WeekKey(lo))
      invariant weeksWithAny == WeeksTouched(s, lo, d)
    {
      if s.IsSelected(d) {
        selectedDays := selectedDays + 1;
        var mins := DayMinutes(s, d);
        totalMinutes := totalMinutes + mins;
        minByMonth := Merge(minByMonth, MonthKey(d), mins);
        var wk := WeekOfProgram(lo, d);
        assert WeekKey(lo)(d) == wk;
        weeksWithAny := weeksWithAny + {wk};
        minByWeek := Merge(minByWeek, wk, mins);
      }
      d := d + 1;
    }
  }

  // ---------------------------------------------------------------------
  // What the pass computes

  /** The selected dates of [lo, n). */
  ghost function SelectedIn(s: StateData, lo: Date, n: int): set<Date>
    requires lo <= n <= LastDay + 1
  {
    set d: Date | lo <= d < n && s.IsSelected(d)
  }

  /** `selectedDays` is the number of selected dates in the range. */
  lemma {:induction false} SelectedCountIsCardinality(s: StateData, lo: Date, n: int)
    requires lo <= n <= LastDay + 1
    ensures SelectedCount(s, lo, n) == |SelectedIn(s, lo, n)|
    decreases n - lo
  {
    if n == lo {
      assert SelectedIn(s, lo, n) == {};
    } else {
      SelectedCountIsCardinality(s, lo, n - 1);
      var d: Date := n - 1;
      if s.IsSelected(d) {
        assert SelectedIn(s, lo, n) == SelectedIn(s, lo, n - 1) + {d};
      } else {
        assert SelectedIn(s, lo, n) == SelectedIn(s, lo, n - 1);
      }
    }
  }

  /** No more dates are selected than the range holds. */
  lemma {:induction false} SelectedCountBound(s: StateData, lo: Date, n: int)
    requires lo <= n <= LastDay + 1
    ensures SelectedCount(s, lo, n) <= n - lo
    ensures SelectedCount(s, lo, n) == n - lo <==>
      forall d: Date :: lo <= d < n ==> s.IsSelected(d)
    decreases n - lo
  {
    if n > lo {
      SelectedCountBound(s, lo, n - 1);
      if SelectedCount(s, lo, n) == n - lo {
        assert s.IsSelected(n - 1);
      }
    }
  }

  /**
   * A key is in the totals exactly when one of the selected dates of the
   * prefix has it: for `minutesByMonth` the months, for `minutesByWeek` the
   * program weeks, that hold a selected date.
   */
  lemma {:induction false} TotalsKeys<K>(s: StateData, lo: Date, n: int, key: Date -> K, k: K)
    requires lo <= n <= LastDay + 1
    ensures k in Totals(s, lo, n, key) <==>
      exists d: Date :: lo <= d < n && s.IsSelected(d) && key(d) == k
    decreases n - lo
  {
    if n > lo {
      TotalsKeys(s, lo, n - 1, key, k);
      var d: Date := n - 1;
      if k in Totals(s, lo, n, key) && k !in Totals(s, lo, n - 1, key) {
        assert s.IsSelected(d) && key(d) == k;
      }
    }
  }

  /** `weeksWithAny` holds exactly the keys of `minByWeek`. */
  lemma {:induction false} WeeksTouchedAreWeekKeys(s: StateData, lo: Date, n: int)
    requires lo <= n <= LastDay + 1
    ensures WeeksTouched(s, lo, n) == Totals(s, lo, n, WeekKey(lo)).Keys
    decreases n - lo
  {
    if n > lo {
      WeeksTouchedAreWeekKeys(s, lo, n - 1);
    }
  }

  /** Every key of `minutesByWeek` is a week of the range, 1 to `weeksInRange`. */
  lemma {:induction false} WeekKeysInRange(s: StateData, lo: Date, hi: Date, n: int)
    requires lo <= hi && lo <= n <= hi + 1
    ensures forall wk :: wk in Totals(s, lo, n, WeekKey(lo)) ==> 1 <= wk <= WeeksInRange(lo, hi)
    decreases n - lo
  {
    if n > lo {
      WeekKeysInRange(s, lo, hi, n - 1);
    }
  }

  /** The week numbers 1 to w. */
  function WeekNumbers(w: nat): (r: set<int>)
    ensures |r| == w
    ensures forall k :: k in r <==> 1 <= k <= w
  {
    if w == 0 then {} else WeekNumbers(w - 1) + {w}
  }

  /** A subset is no larger than its superset. */
  lemma {:induction false} SubsetNoLarger<T>(a: set<T>, b: set<T>)
    requires a <= b
    ensures |a| <= |b|
    decreases a
  {
    if a != {} {
      var x :| x in a;
      SubsetNoLarger(a - {x}, b - {x});
    }
  }

  /**
   * `weeksWithTraining` never exceeds `weeksInRange`, and it is zero exactly
   * when no date is selected.
   */
  lemma WeeksWithTrainingBounds(s: StateData)
    requires s.HasRange()
    ensures Summary(s).weeksWithTraining <= Summary(s).weeksInRange
    ensures Summary(s).weeksWithTraining == 0 <==> Summary(s).selectedDays == 0
  {
    var lo := s.MinDate().value;
    var hi: int := s.MaxDate().value;
    WeeksTouchedBound(s, lo, hi);
    EmptyPassTouchesNothing(s, lo, hi + 1);
  }

  /** The weeks a pass over [lo, hi] touches are among its `WeeksInRange(lo, hi)` weeks. */
  lemma WeeksTouchedBound(s: StateData, lo: Date, hi: Date)
    requires lo <= hi
    ensures |WeeksTouched(s, lo, hi + 1)| <= WeeksInRange(lo, hi)
  {
    var touched := WeeksTouched(s, lo, hi + 1);
    WeeksTouchedAreWeekKeys(s, lo, hi + 1);
    WeekKeysInRange(s, lo, hi, hi + 1);
    var all := WeekNumbers(WeeksInRange(lo, hi));
    assert touched <= all;
    SubsetNoLarger(touched, all);
  }

  /** No week is touched exactly when no date is selected. */
  lemma {:induction false} EmptyPassTouchesNothing(s: StateData, lo: Date, n: int)
    requires lo <= n <= LastDay + 1
    ensures WeeksTouched(s, lo, n) == {} <==> SelectedCount(s, lo, n) == 0
    decreases n - lo
  {
    if n > lo {
      EmptyPassTouchesNothing(s, lo, n - 1);
    }
  }

  // ---------------------------------------------------------------------
  // Minutes are conserved: each breakdown adds up to the total

  /** The sum of m's values over the keys in ks, in any order. */
  ghost function SumOver<K>(m: map<K, int>, ks: set<K>): int
    requires ks <= m.Keys
    decreases ks
  {
    if ks == {} then 0
    else
      var k :| k in ks;
      m[k] + SumOver(m, ks - {k})
  }

  /** The sum of all of a map's values. */
  ghost function SumValues<K>(m: map<K, int>): int {
    SumOver(m, m.Keys)
  }

  /** Any key can be taken out of the sum first. */
  lemma {:induction false} SumOverRemove<K>(m: map<K, int>, ks: set<K>, k: K)
    requires ks <= m.Keys && k in ks
    ensures SumOver(m, ks) == m[k] + SumOver(m, ks - {k})
    decreases ks
  {
    var j :| j in ks && SumOver(m, ks) == m[j] + SumOver(m, ks - {j});
    if j != k {
      SumOverRemove(m, ks - {j}, k);
      SumOverRemove(m, ks - {k}, j);
      assert ks - {j} - {k} == ks - {k} - {j};
    }
  }

  /** The sum over ks depends only on the values at ks. */
  lemma {:induction false} SumOverAgree<K>(m: map<K, int>, m': map<K, int>, ks: set<K>)
    requires ks <= m.Keys && ks <= m'.Keys
    requires forall k :: k in ks ==> m[k] == m'[k]
    ensures SumOver(m, ks) == SumOver(m', ks)
    decreases ks
  {
    if ks != {} {
      var k :| k in ks && SumOver(m, ks) == m[k] + SumOver(m, ks - {k});
      SumOverRemove(m', ks, k);
      SumOverAgree(m, m', ks - {k});
    }
  }

  /** Merging v into a map adds v to the sum of its values. */
  lemma MergeAddsToSum<K>(m: map<K, int>, k: K, v: int)
    ensures SumValues(Merge(m, k, v)) == SumValues(m) + v
  {
    var r := Merge(m, k, v);
    SumOverRemove(r, r.Keys, k);
    var rest := m.Keys - {k};
    assert r.Keys - {k} == rest;
    SumOverAgree(r, m, rest);
    if k in m {
      SumOverRemove(m, m.Keys, k);
    } else {
      assert rest == m.Keys;
    }
  }

  /** The month totals and the week totals each add up to the total minutes. */
  lemma {:induction false} MinutesConserved<K>(s: StateData, lo: Date, n: int, key: Date -> K)
    requires lo <= n <= LastDay + 1
    ensures SumValues(Totals(s, lo, n, key)) == MinutesTotal(s, lo, n)
    decreases n - lo
  {
    if n > lo {
      MinutesConserved(s, lo, n - 1, key);
      var d: Date := n - 1;
      if s.IsSelected(d) {
        MergeAddsToSum(Totals(s, lo, n - 1, key), key(d), DayMinutes(s, d));
      }
    }
  }

  /** Every selected day adds between 0 and 1439 minutes. */
  lemma {:induction false} MinutesTotalBounds(s: StateData, lo: Date, n: int)
    requires lo <= n <= LastDay + 1
    ensures 0 <= MinutesTotal(s, lo, n) <= 1439 * SelectedCount(s, lo, n)
    decreases n - lo
  {
    if n > lo {
      MinutesTotalBounds(s, lo, n - 1);
    }
  }

  /** The summary's month and week breakdowns each add up to its total. */
  lemma SummaryMinutesConsistent(s: StateData)
    requires s.HasRange()
    ensures SumValues(Summary(s).minutesByMonth) == Summary(s).totalMinutes
    ensures SumValues(Summary(s).minutesByWeek) == Summary(s).totalMinutes
  {
    var lo := s.MinDate().value;
    var hi: int := s.MaxDate().value;
    var sum := Summary(s);
    assert sum.totalMinutes == MinutesTotal(s, lo, hi + 1);
    assert sum.minutesByMonth == Totals(s, lo, hi + 1, MonthKey);
    assert sum.minutesByWeek == Totals(s, lo, hi + 1, WeekKey(lo));
    MinutesConserved(s, lo, hi + 1, MonthKey);
    MinutesConserved(s, lo, hi + 1, WeekKey(lo));
  }

  /** The summary's total is at most 1439 minutes for each selected day. */
  lemma SummaryMinutesBounded(s: StateData)
    requires s.HasRange()
    ensures 0 <= Summary(s).totalMinutes <= 1439 * Summary(s).selectedDays
  {
    var lo := s.MinDate().value;
    var hi: int := s.MaxDate().value;
    var sum := Summary(s);
    assert sum.selectedDays == SelectedCount(s, lo, hi + 1);
    assert sum.totalMinutes == MinutesTotal(s, lo, hi + 1);
    MinutesTotalBounds(s, lo, hi + 1);
  }

  /** The summary's range is ordered and its day count is the number of selected dates in it. */
  lemma SummarySelectedDays(s: StateData)
    requires s.HasRange()
    ensures Summary(s).start <= Summary(s).end
    ensures Summary(s).selectedDays == |SelectedIn(s, Summary(s).start, Summary(s).end + 1)|
  {
    var lo := s.MinDate().value;
    var hi: int := s.MaxDate().value;
    var sum := Summary(s);
    assert sum.start == lo && sum.end == hi;
    assert sum.selectedDays == SelectedCount(s, lo, hi + 1);
    SelectedCountIsCardinality(s, lo, hi + 1);
  }
}
