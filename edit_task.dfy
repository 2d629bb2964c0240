/** src/Components/EditTask.tsx: the edit modal's form data, its per-field
    change handlers and its submit.  `isoOf` stands for
    `new Date(value).toISOString()` on the date input's value. */
module EditTask {
  import opened Wrappers
  import opened TaskTypes
  import opened JsStrings

  const TitleMax: nat := 50
  const DescriptionMax: nat := 200
  const IntervalMax: nat := 20

  /** `Partial<Task>` restricted to the six editable fields; None is an absent (or undefined) field. */
  datatype FormData = FormData(
    title: Option<string>,
    description: Option<string>,
    priority: Option<Priority>,
    dueDate: Option<string>,
    recurring: Option<bool>,
    recurringInterval: Option<string>)

  /** `useState<Partial<Task>>({})`. */
  const EmptyForm := FormData(None, None, None, None, None, None)

  /** The effect on `task`: the six editable fields copied from the task.  The
      form has no place for `id`, `completed` or `createdAt`. */
  function InitialForm(task: Task): (f: FormData)
    ensures f.title == Some(task.title) && f.description == task.description
    ensures f.priority == Some(task.priority) && f.dueDate == task.dueDate
    ensures f.recurring == Some(task.recurring) && f.recurringInterval == task.recurringInterval
  {
    FormData(Some(task.title), task.description, Some(task.priority), task.dueDate,
             Some(task.recurring), task.recurringInterval)
  }

  /** One `onChange` event of one input. */
  datatype FieldEdit =
    | TitleInput(text: string)
    | DescriptionInput(text: string)
    | PriorityInput(choice: Priority)
    | DueDateInput(text: string)
    | RecurringInput(checked: bool)
    | IntervalInput(text: string)

  /** A text clamped to its first `max` characters, shorter text unchanged. */
  predicate ClampedFrom(r: string, text: string, max: nat) {
    |r| <= max && |r| <= |text| && r == text[..|r|] && (|text| <= max ==> r == text) && (|text| > max ==> |r| == max)
  }

  /** `setFormData({ ...formData, field: value })` for the edited field. */
  function ApplyEdit(f: FormData, e: FieldEdit, isoOf: string -> string): (g: FormData)
    // the title, description and interval are clamped to 50, 200 and 20 characters
    ensures e.TitleInput? ==> g.title.Some? && ClampedFrom(g.title.value, e.text, TitleMax)
    ensures e.DescriptionInput? ==> g.description.Some? && ClampedFrom(g.description.value, e.text, DescriptionMax)
    ensures e.IntervalInput? ==> g.recurringInterval.Some? && ClampedFrom(g.recurringInterval.value, e.text, IntervalMax)
    ensures e.PriorityInput? ==> g.priority == Some(e.choice)
    ensures e.RecurringInput? ==> g.recurring == Some(e.checked)
    // clearing the date input removes the due date
    ensures e.DueDateInput? ==> g.dueDate == if e.text == "" then None else Some(isoOf(e.text))
    // every other field keeps its value
    ensures !e.TitleInput? ==> g.title == f.title
    ensures !e.DescriptionInput? ==> g.description == f.description
    ensures !e.PriorityInput? ==> g.priority == f.priority
    ensures !e.DueDateInput? ==> g.dueDate == f.dueDate
    ensures !e.RecurringInput? ==> g.recurring == f.recurring
    ensures !e.IntervalInput? ==> g.recurringInterval == f.recurringInterval
  {
    match e
    case TitleInput(text) => f.(title := Some(Take(text, TitleMax)))
    case DescriptionInput(text) => f.(description := Some(Take(text, DescriptionMax)))
    case PriorityInput(p) => f.(priority := Some(p))
    case DueDateInput(text) => f.(dueDate := if text == "" then None else Some(isoOf(text)))
    case RecurringInput(checked) => f.(recurring := Some(checked))
    case IntervalInput(text) => f.(recurringInterval := Some(Take(text, IntervalMax)))
  }

  /** Typing the same clamped text again changes nothing: clamping is idempotent. */
  lemma ClampIdempotent(f: FormData, e: FieldEdit, isoOf: string -> string)
    requires e.TitleInput? || e.DescriptionInput? || e.IntervalInput?
    ensures var g := ApplyEdit(f, e, isoOf);
            var again := match e
                         case TitleInput(_) => TitleInput(g.title.value)
                         case DescriptionInput(_) => DescriptionInput(g.description.value)
                         case IntervalInput(_) => IntervalInput(g.recurringInterval.value)
                         case _ => e;
            ApplyEdit(g, again, isoOf) == g
  {
  }

  /** The select shows `formData.priority || 'medium'`. */
  function DisplayedPriority(f: FormData): (p: Priority)
    ensures f.priority.None? ==> p == Medium
    ensures f.priority.Some? ==> p == f.priority.value
  {
    f.priority.GetOr(Medium)
  }

  /** The interval input is rendered only while `formData.recurring` is true. */
  predicate ShowsIntervalInput(f: FormData) {
    f.recurring == Some(true)
  }

  /** Unticking recurring hides the interval input but keeps the interval in the form data. */
  lemma UntickKeepsInterval(f: FormData, isoOf: string -> string)
    ensures var g := ApplyEdit(f, RecurringInput(false), isoOf);
            !ShowsIntervalInput(g) && g.recurringInterval == f.recurringInterval
  {
  }

  /** The title input is `required` over the value `formData.title || ''`:
      the browser blocks submission while it is empty. */
  predicate CanSubmit(f: FormData) {
    f.title.Some? && f.title.value != ""
  }

  class EditModal {
    const task: Task
    var formData: FormData

    /** The first render, before the effect has copied the task. */
    constructor (task: Task)
      ensures this.task == task && formData == EmptyForm
    {
      this.task := task;
      formData := EmptyForm;
    }

    /** The effect that runs for `task`. */
    method Initialise()
      modifies this
      ensures formData == InitialForm(task)
    {
      formData := InitialForm(task);
    }

    /** An input's `onChange`. */
    method Change(e: FieldEdit, isoOf: string -> string)
      modifies this
      ensures formData == ApplyEdit(old(formData), e, isoOf)
    {
      formData := ApplyEdit(formData, e, isoOf);
    }

    /** Submit: `onSave` gets the current form data unchanged, unless the
        empty title blocks submission (then `onSave` is not called). */
    method Submit() returns (saved: Option<FormData>)
      ensures saved.Some? <==> formData.title.Some? && formData.title.value != ""
      ensures saved.Some? ==> saved.value == formData
    {
      if CanSubmit(formData) {
        saved := Some(formData);
      } else {
        saved := None;
      }
    }
  }
}
