/** src/utils/isOverdue.ts.  Dates are local calendar day numbers: `dayOf(s)` is
    the day `new Date(s)` falls on after `setHours(0,0,0,0)`, or None when the
    date is invalid; `today` is that day number for `new Date()`. */
module Overdue {
  import opened Wrappers
  import opened TaskTypes

  /** A task is overdue exactly when it is not completed, has a due date that
      parses, and that date falls on a day strictly before today. */
  function IsOverdue(dueDate: Option<string>, completed: bool,
                     dayOf: string -> Option<int>, today: int): (r: bool)
    ensures r <==> !completed && Present(dueDate) && dayOf(dueDate.value).Some?
                   && dayOf(dueDate.value).value < today
  {
    if !Present(dueDate) || completed then false
    else
      var due := dayOf(dueDate.value);
      if due.None? then false
      else due.value < today
  }

  /** Comparison is by whole days: anything due today or later is not overdue,
      and a completed, undated or unparseable task never is. */
  lemma NotOverdueCases(dueDate: Option<string>, completed: bool,
                        dayOf: string -> Option<int>, today: int)
    ensures completed ==> !IsOverdue(dueDate, completed, dayOf, today)
    ensures !Present(dueDate) ==> !IsOverdue(dueDate, completed, dayOf, today)
    ensures Present(dueDate) && dayOf(dueDate.value).None? ==> !IsOverdue(dueDate, completed, dayOf, today)
    ensures Present(dueDate) && dayOf(dueDate.value).Some? && dayOf(dueDate.value).value >= today
            ==> !IsOverdue(dueDate, completed, dayOf, today)
  {
  }

  /** Being overdue only becomes true as days pass: once overdue, a task stays overdue on later days. */
  lemma OverdueMonotone(dueDate: Option<string>, completed: bool,
                        dayOf: string -> Option<int>, today: int, later: int)
    requires today <= later
    ensures IsOverdue(dueDate, completed, dayOf, today) ==> IsOverdue(dueDate, completed, dayOf, later)
  {
  }
}
