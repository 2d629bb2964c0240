/** src/utils/formatDate.ts.  Days are local calendar day numbers as in module
    Overdue; the 'D MMM' text of `toLocaleDateString` stays abstract and is
    represented by the day it renders. */
module DateFormat {
  import opened Wrappers
  import opened TaskTypes

  datatype DateLabel = Today | Tomorrow | DayMonth(day: int)

  /** None for a missing, empty or unparseable date; Today for the current day,
      Tomorrow for the next one, and the day-and-month label for any other day. */
  function FormatDate(dateStr: Option<string>, dayOf: string -> Option<int>, today: int): (r: Option<DateLabel>)
    ensures r.None? <==> !Present(dateStr) || dayOf(dateStr.value).None?
    ensures r == Some(Today) <==> Present(dateStr) && dayOf(dateStr.value) == Some(today)
    ensures r == Some(Tomorrow) <==> Present(dateStr) && dayOf(dateStr.value) == Some(today + 1)
    ensures r.Some? && r.value.DayMonth? ==>
              r.value.day == dayOf(dateStr.value).value && r.value.day != today && r.value.day != today + 1
  {
    if !Present(dateStr) then None
    else
      var day := dayOf(dateStr.value);
      if day.None? then None
      else if day.value == today then Some(Today)
      else if day.value == today + 1 then Some(Tomorrow)
      else Some(DayMonth(day.value))
  }
}
