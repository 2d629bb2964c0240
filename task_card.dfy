/** src/Components/Task.tsx: what one task card shows, computed from the task,
    the day-number oracle of module Overdue and today's day number. */
module TaskCard {
  import opened Wrappers
  import opened TaskTypes
  import opened Overdue
  import opened DateFormat
  import opened PriorityColour

  const TitleLimit: nat := 40
  const DescriptionLimit: nat := 50

  /** `shortenText`: text no longer than `max` is kept; longer text is cut to
      its first `max` characters followed by an ellipsis. */
  function ShortenText(text: string, max: nat): (r: string)
    ensures |text| <= max ==> r == text
    ensures |text| > max ==> |r| == max + 3 && r[..max] == text[..max] && r[max..] == "..."
  {
    if |text| > max then text[..max] + "..." else text
  }

  /** A shortened text always reveals a prefix of the original and is at most three characters longer than `max`. */
  lemma ShortenTextBounds(text: string, max: nat)
    ensures |ShortenText(text, max)| <= max + 3
    ensures |ShortenText(text, max)| <= max <==> |text| <= max
    ensures var k := if |text| <= max then |text| else max;
            ShortenText(text, max)[..k] == text[..k]
  {
  }

  datatype CardStyle = CompletedStyle | OverdueStyle | PlainStyle

  /** The due-date chip: red when the task is overdue, with the date label of formatDate. */
  datatype DueChip = DueChip(overdue: bool, dateLabel: Option<DateLabel>)

  /** Everything the card renders that depends on the task's data. */
  datatype Card = Card(
    style: CardStyle,
    title: string,
    description: Option<string>,
    dueChip: Option<DueChip>,
    recurringBadge: Option<string>,
    priorityLabel: string,
    priorityClasses: string)

  function RenderCard(task: Task, dayOf: string -> Option<int>, today: int): (c: Card)
    // completed wins over overdue, and overdue needs an unfinished task
    ensures c.style == CompletedStyle <==> task.completed
    ensures c.style == OverdueStyle <==> !task.completed && IsOverdue(task.dueDate, task.completed, dayOf, today)
    // titles are shortened at 40 characters, descriptions at 50
    ensures c.title == ShortenText(task.title, TitleLimit)
    ensures c.description.Some? <==> Present(task.description)
    ensures c.description.Some? ==> c.description.value == ShortenText(task.description.value, DescriptionLimit)
    // the chip and the badge appear only for present fields
    ensures c.dueChip.Some? <==> Present(task.dueDate)
    ensures c.dueChip.Some? ==> (c.dueChip.value.dateLabel.Some? <==> dayOf(task.dueDate.value).Some?)
    // the chip is red exactly when the task is overdue, and labelled by formatDate
    ensures c.dueChip.Some? ==>
              c.dueChip.value == DueChip(IsOverdue(task.dueDate, task.completed, dayOf, today),
                                         FormatDate(task.dueDate, dayOf, today))
    ensures c.recurringBadge.Some? <==> task.recurring && Present(task.recurringInterval)
    ensures c.recurringBadge.Some? ==> c.recurringBadge == task.recurringInterval
    ensures c.priorityLabel == PriorityName(task.priority)
    ensures c.priorityClasses == GetPriorityColour(PriorityName(task.priority))
  {
    var overdue := IsOverdue(task.dueDate, task.completed, dayOf, today);
    Card(
      if task.completed then CompletedStyle else if overdue then OverdueStyle else PlainStyle,
      ShortenText(task.title, TitleLimit),
      if Present(task.description) then Some(ShortenText(task.description.value, DescriptionLimit)) else None,
      if Present(task.dueDate) then Some(DueChip(overdue, FormatDate(task.dueDate, dayOf, today))) else None,
      if task.recurring && Present(task.recurringInterval) then task.recurringInterval else None,
      PriorityName(task.priority),
      GetPriorityColour(PriorityName(task.priority)))
  }

  /** A task that is not recurring never shows an interval badge, whatever interval it still holds. */
  lemma NoBadgeUnlessRecurring(task: Task, dayOf: string -> Option<int>, today: int)
    requires !task.recurring
    ensures RenderCard(task, dayOf, today).recurringBadge.None?
  {
  }

  /** A chip labelled Today or Tomorrow is never red: overdue and the near-day labels exclude each other. */
  lemma NearDayChipNotOverdue(task: Task, dayOf: string -> Option<int>, today: int)
    requires RenderCard(task, dayOf, today).dueChip.Some?
    requires RenderCard(task, dayOf, today).dueChip.value.dateLabel in {Some(Today), Some(Tomorrow)}
    ensures !RenderCard(task, dayOf, today).dueChip.value.overdue
  {
  }

  /** The three buttons of a card. */
  datatype Button = ToggleButton | DeleteButton | EditButton

  /** What a button click hands to the parent. */
  datatype Callback = OnToggle(id: string) | OnDelete(id: string) | OnOpenModal(task: Task)

  /** Toggle and delete pass the task's id; edit passes the whole task. */
  function Click(task: Task, b: Button): (cb: Callback)
    ensures b == ToggleButton ==> cb == OnToggle(task.id)
    ensures b == DeleteButton ==> cb == OnDelete(task.id)
    ensures b == EditButton ==> cb == OnOpenModal(task)
  {
    match b
    case ToggleButton => OnToggle(task.id)
    case DeleteButton => OnDelete(task.id)
    case EditButton => OnOpenModal(task)
  }
}
