/**
 * `ProgramState`: the date-selection state machine. It holds the range
 * anchors, the weekday filter, the weekday schedule, the per-date overrides,
 * the events by date and the pointer to the last date pinned outside the range.
 */
module Program {
  import opened Wrappers
  import opened Calendar
  import opened TimeRanges
  import opened Events

  /** The value of every field of a ProgramState at one moment. */
  datatype StateData = StateData(
    start: Option<Date>,
    end: Option<Date>,
    trainingDays: set<Weekday>,
    timeByDay: map<Weekday, TimeRange>,
    forceOn: set<Date>,
    forceOff: set<Date>,
    events: map<Date, seq<CalendarEvent>>,
    lastOutsideClick: Option<Date>)
  {
    /** `hasRange`: both anchors are set. */
    predicate HasRange()
    {
      start.Some? && end.Some?
    }

    /** `minDate`: the earlier anchor, or nothing without a range. */
    function MinDate(): (r: Option<Date>)
      ensures r.Some? <==> HasRange()
      ensures r.Some? ==> r.value <= start.value && r.value <= end.value
      ensures r.Some? ==> r.value == start.value || r.value == end.value
    {
      if !HasRange() then None
      else if start.value < end.value then start else end
    }

    /** `maxDate`: the later anchor, or nothing without a range. */
    function MaxDate(): (r: Option<Date>)
      ensures r.Some? <==> HasRange()
      ensures r.Some? ==> r.value >= start.value && r.value >= end.value
      ensures r.Some? ==> r.value == start.value || r.value == end.value
    {
      if !HasRange() then None
      else if end.value > start.value then end else start
    }

    /** `isInsideRange`: d lies between the two anchors, whichever order they are in. */
    predicate IsInsideRange(d: Date)
      ensures IsInsideRange(d) <==>
        HasRange() && (start.value <= d <= end.value || end.value <= d <= start.value)
    {
      if !HasRange() then false
      else !(d < MinDate().value) && !(d > MaxDate().value)
    }

    /**
     * `isSelected`, decided in strict priority: forced on, then forced off,
     * then outside the range, then an empty weekday filter, then the filter.
     */
    predicate IsSelected(d: Date)
      ensures d in forceOn ==> IsSelected(d)
      ensures d !in forceOn && d in forceOff ==> !IsSelected(d)
      ensures d !in forceOn && !IsInsideRange(d) ==> !IsSelected(d)
      ensures d !in forceOn && d !in forceOff && IsInsideRange(d) ==>
        (IsSelected(d) <==> trainingDays == {} || WeekdayOf(d) in trainingDays)
    {
      if d in forceOn then true
      else if d in forceOff then false
      else if !IsInsideRange(d) then false
      else if trainingDays == {} then true
      else WeekdayOf(d) in trainingDays
    }
  }

  const EmptyState := StateData(None, None, {}, map[], {}, {}, map[], None)

  class ProgramState {
    var start: Option<Date>
    var end: Option<Date>
    /** Active weekdays; empty means every day of the range. */
    var trainingDays: set<Weekday>
    var timeByDay: map<Weekday, TimeRange>
    var forceOn: set<Date>
    var forceOff: set<Date>
    /** Java keeps one mutable list per date; the model keeps its contents. */
    var events: map<Date, seq<CalendarEvent>>
    var lastOutsideClick: Option<Date>

    constructor ()
      ensures Data() == EmptyState
    {
      start := None;
      end := None;
      trainingDays := {};
      timeByDay := map[];
      forceOn := {};
      forceOff := {};
      events := map[];
      lastOutsideClick := None;
    }

    function Data(): StateData
      reads this
    {
      StateData(start, end, trainingDays, timeByDay, forceOn, forceOff, events, lastOutsideClick)
    }

    // The queries read the current fields through `Data()`; their contracts
    // are those of the `StateData` members.

    predicate HasRange()
      reads this
    {
      Data().HasRange()
    }

    function MinDate(): Option<Date>
      reads this
    {
      Data().MinDate()
    }

    function MaxDate(): Option<Date>
      reads this
    {
      Data().MaxDate()
    }

    predicate IsInsideRange(d: Date)
      reads this
    {
      Data().IsInsideRange(d)
    }

    predicate IsSelected(d: Date)
      reads this
    {
      Data().IsSelected(d)
    }

    /** `setRange`: both anchors stored as given, in either order. */
    method SetRange(a: Option<Date>, z: Option<Date>)
      modifies this
      ensures Data() == old(Data()).(start := a, end := z)
    {
      start := a;
      end := z;
    }

    /**
     * `closeRangeAt`: a first click sets the start and clears the end; a
     * later click closes the range at d, swapping when d precedes the start.
     */
    method CloseRangeAt(d: Date)
      modifies this
      ensures old(start).None? ==> start == Some(d) && end == None
      ensures old(start).Some? ==>
        && HasRange() && start.value <= end.value
        && {start.value, end.value} == {old(start).value, d}
      ensures Data() == old(Data()).(start := start, end := end)
    {
      if start == None {
        start := Some(d);
        end := None;
        return;
      }
      if d < start.value {
        end := start;
        start := Some(d);
      } else {
        end := Some(d);
      }
    }

    /**
     * `adjustRangeWith`, the shift-click: its three branches end in exactly the
     * state `CloseRangeAt(d)` produces, whatever the state was.
     */
    method AdjustRangeWith(d: Date)
      modifies this
      ensures old(start).None? ==> start == Some(d) && end == None
      ensures old(start).Some? ==>
        && HasRange() && start.value <= end.value
        && {start.value, end.value} == {old(start).value, d}
      ensures Data() == old(Data()).(start := start, end := end)
    {
      if start == None {
        start := Some(d);
        end := None;
        return;
      }
      if end == None {
        CloseRangeAt(d);
        return;
      }
      if d < start.value {
        end := start;
        start := Some(d);
      } else {
        end := Some(d);
      }
    }

    /**
     * `toggleException`, the ctrl-click: moves d to the override set that
     * negates its current selection and leaves every other date's selection alone.
     */
    method ToggleException(d: Date)
      modifies this
      ensures IsSelected(d) == !old(IsSelected(d))
      ensures forall e: Date :: e != d ==> IsSelected(e) == old(IsSelected(e))
      ensures (d in forceOn) != (d in forceOff)
      ensures old(IsSelected(d)) ==> forceOn == old(forceOn) - {d} && forceOff == old(forceOff) + {d}
      ensures !old(IsSelected(d)) ==> forceOn == old(forceOn) + {d} && forceOff == old(forceOff) - {d}
      ensures old(forceOn !! forceOff) ==> forceOn !! forceOff
      ensures Data() == old(Data()).(forceOn := forceOn, forceOff := forceOff)
    {
      if IsSelected(d) {
        forceOn := forceOn - {d};
        forceOff := forceOff + {d};
      } else {
        forceOff := forceOff - {d};
        forceOn := forceOn + {d};
      }
    }

    /**
     * `toggleOutsideSelection`, a plain click outside the range. The un-pin step
     * removes the previous pin only when it is not in `forceOn`, which makes it a
     * no-op, so earlier pins stay selected. Otherwise d leaves `forceOn` if it
     * was there (clearing the pointer if it pointed at d), or joins it and
     * becomes the pointer.
     */
    method ToggleOutsideSelection(d: Date)
      modifies this
      ensures old(IsInsideRange(d)) ==> Data() == old(Data())
      ensures !old(IsInsideRange(d)) && d in old(forceOn) ==>
        && forceOn == old(forceOn) - {d}
        && lastOutsideClick == (if old(lastOutsideClick) == Some(d) then None else old(lastOutsideClick))
      ensures !old(IsInsideRange(d)) && d !in old(forceOn) ==>
        forceOn == old(forceOn) + {d} && lastOutsideClick == Some(d)
      ensures Data() == old(Data()).(forceOn := forceOn, lastOutsideClick := lastOutsideClick)
    {
      if IsInsideRange(d) {
        return;
      }
      if lastOutsideClick.Some? && lastOutsideClick.value != d
         && lastOutsideClick.value !in forceOn
      {
        forceOn := forceOn - {lastOutsideClick.value};
      }
      if d in forceOn {
        forceOn := forceOn - {d};
        if lastOutsideClick == Some(d) {
          lastOutsideClick := None;
        }
      } else {
        forceOn := forceOn + {d};
        lastOutsideClick := Some(d);
      }
    }

    /** `forceOn`: d is selected, whatever the other rules say. */
    method ForceOn(d: Date)
      modifies this
      ensures forceOn == old(forceOn) + {d} && forceOff == old(forceOff) - {d}
      ensures IsSelected(d)
      ensures old(forceOn !! forceOff) ==> forceOn !! forceOff
      ensures Data() == old(Data()).(forceOn := forceOn, forceOff := forceOff)
    {
      forceOff := forceOff - {d};
      forceOn := forceOn + {d};
    }

    /** `forceOff`: d is not selected, whatever the other rules say. */
    method ForceOff(d: Date)
      modifies this
      ensures forceOff == old(forceOff) + {d} && forceOn == old(forceOn) - {d}
      ensures !IsSelected(d)
      ensures old(forceOn !! forceOff) ==> forceOn !! forceOff
      ensures Data() == old(Data()).(forceOn := forceOn, forceOff := forceOff)
    {
      forceOn := forceOn - {d};
      forceOff := forceOff + {d};
    }

    /**
     * `copyFrom`: each collection is cleared and refilled from `other`, the
     * events date by date. From a different object every field ends equal to
     * the source's; copying an object onto itself keeps the anchors and the
     * pointer but empties every collection, because the clear runs first.
     */
    method CopyFrom(other: ProgramState)
      modifies this
      ensures other != this ==> Data() == old(other.Data())
      ensures other == this ==> Data() == old(Data()).(trainingDays := {}, timeByDay := map[],
                                                       forceOn := {}, forceOff := {}, events := map[])
    {
      start := other.start;
      end := other.end;

      // Each collection is cleared before the source's entries are added, so
      // copying a state onto itself leaves its collections empty.
      trainingDays := {};
      var days := other.trainingDays;
      trainingDays := days;

      timeByDay := map[];
      var times := other.timeByDay;
      timeByDay := times;

      forceOn := {};
      var on := other.forceOn;
      forceOn := on;

      forceOff := {};
      var off := other.forceOff;
      forceOff := off;

      // Each event list is copied; as values, the copies equal the originals.
      events := map[];
      var evs := other.events;
      events := evs;

      lastOutsideClick := other.lastOutsideClick;
    }
  }
}
