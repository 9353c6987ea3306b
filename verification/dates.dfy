/** Calendar days and the `yyyy-MM-dd` keys the store saves them under. A day is its ordinal
    number (consecutive days have consecutive ordinals); the key of a day is an injective encoding
    of it, standing for the text `format(date, 'yyyy-MM-dd')` produces. */
module Dates {
  import opened Common

  /** A stored date key: the key of a calendar day, or a stored text that does not parse as a date
      (for which `parseISO` yields an Invalid Date). */
  datatype DateKey = DayKey(ordinal: int) | Unparsable(text: string)

  /** The key `format(date, 'yyyy-MM-dd')` gives the day `day`; parsing it gives the day back. */
  function KeyOf(day: int): (k: DateKey)
    ensures ParseKey(k) == Some(day)
  {
    DayKey(day)
  }

  /** `parseISO(key)`: the day a key denotes, or `None` for an Invalid Date. */
  function ParseKey(k: DateKey): Option<int>
  {
    match k
    case DayKey(d) => Some(d)
    case Unparsable(_) => None
  }

  /** `differenceInCalendarDays(today, parseISO(key))`: how many calendar days `today` lies after the
      key's day; `None` stands for the NaN an Invalid Date produces. */
  function CalendarDaysSince(today: int, key: DateKey): (diff: Option<int>)
    ensures forall day :: key == KeyOf(day) ==> diff == Some(today - day)
    ensures key.Unparsable? ==> diff == None
  {
    match ParseKey(key)
    case Some(day) => Some(today - day)
    case None => None
  }
}
