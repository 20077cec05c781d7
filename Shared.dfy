/** Values shared by the three screens: optional values, the outcome of a
    call to a server or to device storage, and the calendar's day record. */
module Shared {

  datatype Option<+T> = None | Some(value: T)

  /** What an awaited call to a server or to device storage produced: a value,
      or a thrown error (whose content the screens only log). */
  datatype Outcome<+T> = Ok(value: T) | Failed

  /** The calendar widget's `DateData` for a tapped day. */
  datatype DateData = DateData(dateString: string, timestamp: int)

  /** One entry of a calendar's marked-dates map. */
  datatype Marking = Marking(selected: bool, color: Option<string>, textColor: Option<string>)
}
