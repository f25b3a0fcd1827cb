/** `CalendarEvent`: a custom event filed under one date. */
module Events {
  import opened TimeRanges

  /**
   * A plain record: two events are equal exactly when all five components are.
   * `description` and `location` may be empty; `reminder` asks the calendar
   * export for an alarm; an `end` before `start` in `time` ends the event on
   * the next day in that export.
   */
  datatype CalendarEvent = CalendarEvent(
    title: string,
    description: string,
    location: string,
    time: TimeRange,
    reminder: bool)

  lemma EventEqualityIsComponentwise(a: CalendarEvent, b: CalendarEvent)
    ensures a == b <==> (a.title == b.title && a.description == b.description
                         && a.location == b.location && a.time == b.time && a.reminder == b.reminder)
  {
  }
}
