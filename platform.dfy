/** What the app reads from the platform: the clock and calendar, and the screen.
    Calendar arithmetic is not modelled; its answers are fields of a record. */
module Platform {
  import opened Collections

  /** An instant, as seconds from a fixed reference date. */
  type Date = int

  /** The calendar questions the app asks, answered for one fixed `now`. */
  datatype Calendar = Calendar(
    now: Date,
    isDateInToday: Date -> bool,
    sameWeek: (Date, Date) -> bool,       // isDate(_:equalTo:toGranularity: .weekOfYear)
    sameMonth: (Date, Date) -> bool,      // isDate(_:equalTo:toGranularity: .month)
    addingMonths: (int, Date) -> Option<Date>,
    year: Date -> int,
    month: Date -> int)

  /** The main screen: its bounds in points and its scale, and whether the
      running system has the screenshot media subtype (`#available(iOS 9.0, *)`). */
  datatype Device = Device(boundsWidth: real, boundsHeight: real, scale: real, hasScreenshotSubtype: bool)
  {
    function PixelWidth(): real { boundsWidth * scale }
    function PixelHeight(): real { boundsHeight * scale }
  }

  function AbsReal(x: real): real { if x < 0.0 then -x else x }
}
