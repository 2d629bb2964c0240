/** The task record of src/types/task.ts and the toast record of src/types/toast.ts.
    Optional fields (`x?: T | null`) are `Option<T>`: None stands for both null and undefined. */
module TaskTypes {
  import opened Wrappers
  import opened Json

  datatype Priority = Low | Medium | High

  /** The wire spelling of a priority. */
  function PriorityName(p: Priority): string {
    match p
    case Low => "low"
    case Medium => "medium"
    case High => "high"
  }

  /** `['low', 'medium', 'high'].includes(s)`, answering with the member found. */
  function ParsePriority(s: string): (r: Option<Priority>)
    ensures r.Some? <==> s in {"low", "medium", "high"}
    ensures r.Some? ==> PriorityName(r.value) == s
  {
    if s == "low" then Some(Low)
    else if s == "medium" then Some(Medium)
    else if s == "high" then Some(High)
    else None
  }

  /** Parsing inverts the wire spelling. */
  lemma PriorityNameRoundTrip(p: Priority)
    ensures ParsePriority(PriorityName(p)) == Some(p)
  {
    match p
    case Low =>
    case Medium =>
    case High =>
  }

  datatype Task = Task(
    id: string,
    title: string,
    description: Option<string>,
    dueDate: Option<string>,
    priority: Priority,
    recurring: bool,
    recurringInterval: Option<string>,
    completed: bool,
    createdAt: string)

  /** A task after `delete task.id`: every field but the identifier. */
  datatype Draft = Draft(
    title: string,
    description: Option<string>,
    dueDate: Option<string>,
    priority: Priority,
    recurring: bool,
    recurringInterval: Option<string>,
    completed: bool,
    createdAt: string)

  /** The snapshot kept for undo: the task with its id removed and nothing else changed. */
  function WithoutId(t: Task): (d: Draft)
    ensures forall id: string {:trigger WithId(d, id)} :: WithId(d, id) == t.(id := id)
  {
    Draft(t.title, t.description, t.dueDate, t.priority, t.recurring,
          t.recurringInterval, t.completed, t.createdAt)
  }

  /** The task a store would hand back for a draft once it has assigned an id. */
  function WithId(d: Draft, id: string): Task {
    Task(id, d.title, d.description, d.dueDate, d.priority, d.recurring,
         d.recurringInterval, d.completed, d.createdAt)
  }

  /** JavaScript truthiness of an optional string: present and non-empty. */
  predicate Present(s: Option<string>) {
    s.Some? && s.value != ""
  }

  /** `JSON.stringify(draft)` as the route handler parses it back. */
  function EncodeDraft(d: Draft): (v: JsonValue)
    ensures Field(v, "title") == Some(JString(d.title))
    ensures Field(v, "recurring") == Some(JBool(d.recurring))
    ensures Field(v, "priority") == Some(JString(PriorityName(d.priority)))
    ensures Field(v, "description") == Some(OptString(d.description))
    ensures Field(v, "dueDate") == Some(OptString(d.dueDate))
    ensures Field(v, "recurringInterval") == Some(OptString(d.recurringInterval))
    ensures Field(v, "completed") == Some(JBool(d.completed))
    ensures Field(v, "createdAt") == Some(JString(d.createdAt))
    ensures Field(v, "id").None?
  {
    JObject(map[
      "title" := JString(d.title),
      "description" := OptString(d.description),
      "dueDate" := OptString(d.dueDate),
      "priority" := JString(PriorityName(d.priority)),
      "recurring" := JBool(d.recurring),
      "recurringInterval" := OptString(d.recurringInterval),
      "completed" := JBool(d.completed),
      "createdAt" := JString(d.createdAt)])
  }

  datatype ToastKind = SuccessToast | ErrorToast

  /** A toast.  `restore` is the undo closure made explicit: the snapshot its
      `onRestore` would re-create (None when the toast has no `onRestore`). */
  datatype Toast = Toast(message: string, kind: ToastKind, undo: bool, restore: Option<Draft>)

  function OkToast(message: string): Toast {
    Toast(message, SuccessToast, false, None)
  }

  function ErrToast(message: string): Toast {
    Toast(message, ErrorToast, false, None)
  }

  /** A thrown JavaScript error: its `name` and its `message`. */
  datatype Exception = Exception(name: string, message: string)

  /** `${error}` for an Error, as Error.prototype.toString renders it. */
  function Describe(e: Exception): (s: string)
    ensures e.message == "" ==> s == e.name
    ensures e.name == "" ==> s == e.message
    ensures e.name != "" && e.message != "" ==> s == e.name + ": " + e.message
  {
    if e.message == "" then e.name
    else if e.name == "" then e.message
    else e.name + ": " + e.message
  }
}
