/** src/app/api/tasks/route.ts: the POST validation chain with the record it
    stores, and PATCH.  The request body arrives as parsed JSON (None when
    `request.json()` throws); the database is an oracle. */
module TasksRoute {
  import opened Wrappers
  import opened Json
  import opened TaskTypes
  import opened JsStrings

  const TitleError := "Invalid or missing \"title\""
  const RecurringError := "Invalid or missing \"recurring\" (must be a boolean)"
  const PriorityError := "Invalid \"priority\" value"
  const DueDateError := "Invalid \"dueDate\" value"
  const CreateFailed := "Failed to create task"
  const ToggleFailed := "Failed to toggle task complete"

  /** The data handed to `prisma.task.create`: these five fields and nothing else.
      `dueDate` is the instant `new Date(body.dueDate)` denotes. */
  datatype TaskRecord = TaskRecord(
    title: string,
    description: Option<JsonValue>,
    dueDate: Option<int>,
    priority: Priority,
    recurring: bool)

  datatype ReplyBody = ErrorBody(error: string) | RowBody(row: Task)
  datatype Reply = Reply(status: int, body: ReplyBody)

  /** `title` is a string with something other than white space in it. */
  predicate TitleValid(body: JsonValue) {
    Field(body, "title").Some? && Field(body, "title").value.JString?
    && !AllSpace(Field(body, "title").value.s)
  }

  /** The title check is the handler's own test: `title` is a string whose
      `trim()` is non-empty. */
  lemma TitleValidIffTrimmed(body: JsonValue)
    ensures TitleValid(body) <==> Field(body, "title").Some? && Field(body, "title").value.JString?
                                  && Trim(Field(body, "title").value.s) != ""
  {
    if Field(body, "title").Some? && Field(body, "title").value.JString? {
      TrimEmptyIff(Field(body, "title").value.s);
    }
  }

  predicate RecurringValid(body: JsonValue) {
    Field(body, "recurring").Some? && Field(body, "recurring").value.JBool?
  }

  /** `priority ?? 'medium'`: undefined and null fall back to medium. */
  function PriorityOrDefault(body: JsonValue): (v: JsonValue)
    ensures Field(body, "priority").None? ==> v == JString("medium")
    ensures Field(body, "priority") == Some(JNull) ==> v == JString("medium")
    ensures Field(body, "priority").Some? && Field(body, "priority").value != JNull ==> v == Field(body, "priority").value
  {
    var p := Field(body, "priority");
    if p.None? || p.value == JNull then JString("medium") else p.value
  }

  /** `body.dueDate` is truthy, so the handler builds a Date from it. */
  predicate HasDueDate(body: JsonValue) {
    Field(body, "dueDate").Some? && Truthy(Field(body, "dueDate").value)
  }

  /** A body passing all four POST checks. */
  predicate CreateAccepted(body: JsonValue, instantOf: JsonValue -> Option<int>) {
    && TitleValid(body) && RecurringValid(body)
    && PriorityOrDefault(body).JString? && ParsePriority(PriorityOrDefault(body).s).Some?
    && (HasDueDate(body) ==> instantOf(Field(body, "dueDate").value).Some?)
  }

  /** The POST checks in source order: title, recurring, priority, dueDate.  The
      first that fails decides the error; a body passing all four becomes the
      record to store. */
  function ValidateCreate(body: JsonValue, instantOf: JsonValue -> Option<int>): (r: Result<TaskRecord, string>)
    ensures !TitleValid(body) ==> r == Failure(TitleError)
    ensures TitleValid(body) && !RecurringValid(body) ==> r == Failure(RecurringError)
    ensures TitleValid(body) && RecurringValid(body)
            && !(PriorityOrDefault(body).JString? && ParsePriority(PriorityOrDefault(body).s).Some?)
            ==> r == Failure(PriorityError)
    ensures r.Failure? ==> r.error in {TitleError, RecurringError, PriorityError, DueDateError}
    ensures r.Success? <==> CreateAccepted(body, instantOf)
    ensures r == Failure(DueDateError) <==>
              TitleValid(body) && RecurringValid(body)
              && PriorityOrDefault(body).JString? && ParsePriority(PriorityOrDefault(body).s).Some?
              && HasDueDate(body) && instantOf(Field(body, "dueDate").value).None?
    ensures r.Success? ==>
              && r.value.title == Trim(Field(body, "title").value.s)
              && r.value.title != ""
              && r.value.recurring == Field(body, "recurring").value.b
              && PriorityOrDefault(body) == JString(PriorityName(r.value.priority))
              && (r.value.dueDate.Some? <==> HasDueDate(body))
              && (r.value.dueDate.Some? ==> r.value.dueDate == instantOf(Field(body, "dueDate").value))
              && (r.value.description.Some? <==> Field(body, "description").Some? && Truthy(Field(body, "description").value))
              && (r.value.description.Some? ==> r.value.description.value == Field(body, "description").value)
  {
    var title := Field(body, "title");
    if !(title.Some? && title.value.JString?) then Failure(TitleError)
    else
    TrimEmptyIff(title.value.s);
    if Trim(title.value.s) == "" then Failure(TitleError)
    else if !RecurringValid(body) then Failure(RecurringError)
    else
      var taskPriority := PriorityOrDefault(body);
      if !(taskPriority.JString? && ParsePriority(taskPriority.s).Some?) then Failure(PriorityError)
      else
        var due := if HasDueDate(body) then Some(instantOf(Field(body, "dueDate").value)) else None;
        if due.Some? && due.value.None? then Failure(DueDateError)
        else
          var desc := Field(body, "description");
          Success(TaskRecord(
            Trim(Field(body, "title").value.s),
            if desc.Some? && Truthy(desc.value) then desc else None,
            if due.Some? then due.value else None,
            ParsePriority(taskPriority.s).value,
            Field(body, "recurring").value.b))
  }

  /** A body that passes all four checks is accepted, and the record is built
      from the trimmed title, the truthy description (else null), the
      defaulted priority, the recurring flag and the parsed due date (else null). */
  lemma ValidateCreateAccepts(body: JsonValue, instantOf: JsonValue -> Option<int>)
    requires CreateAccepted(body, instantOf)
    ensures ValidateCreate(body, instantOf) == Success(TaskRecord(
              Trim(Field(body, "title").value.s),
              if Field(body, "description").Some? && Truthy(Field(body, "description").value)
              then Field(body, "description") else None,
              if HasDueDate(body) then instantOf(Field(body, "dueDate").value) else None,
              ParsePriority(PriorityOrDefault(body).s).value,
              Field(body, "recurring").value.b))
  {
  }

  /** What POST did: its reply, and the record it asked the database to create (if any). */
  datatype PostResult = PostResult(reply: Reply, written: Option<TaskRecord>)

  /** `POST`.  `insert` is the database: the row it creates for a record, or None when it throws. */
  function Post(body: Option<JsonValue>, instantOf: JsonValue -> Option<int>,
                insert: TaskRecord -> Option<Task>): (r: PostResult)
    // nothing is written unless every check passed
    ensures r.written.Some? <==> body.Some? && body.value != JNull && ValidateCreate(body.value, instantOf).Success?
    ensures r.written.Some? ==> r.written.value == ValidateCreate(body.value, instantOf).value
    // a failed check answers 400 with its message
    ensures body.Some? && body.value != JNull && ValidateCreate(body.value, instantOf).Failure? ==>
              r.reply == Reply(400, ErrorBody(ValidateCreate(body.value, instantOf).error))
    // an unreadable body or a failed insert answers 500
    ensures body.None? || body == Some(JNull) ==> r.reply == Reply(500, ErrorBody(CreateFailed))
    ensures r.written.Some? ==>
              r.reply == if insert(r.written.value).Some? then Reply(201, RowBody(insert(r.written.value).value))
                         else Reply(500, ErrorBody(CreateFailed))
  {
    if body.None? || body.value == JNull then
      // `request.json()` threw, or destructuring `null` did
      PostResult(Reply(500, ErrorBody(CreateFailed)), None)
    else
      match ValidateCreate(body.value, instantOf)
      case Failure(msg) => PostResult(Reply(400, ErrorBody(msg)), None)
      case Success(record) =>
        var row := insert(record);
        if row.Some? then PostResult(Reply(201, RowBody(row.value)), Some(record))
        else PostResult(Reply(500, ErrorBody(CreateFailed)), Some(record))
  }

  /** The update succeeds: `id` is a string naming a stored row, and
      `completed` is a boolean or absent. */
  predicate PatchAccepted(body: Option<JsonValue>, table: map<string, Task>) {
    && body.Some?
    && Field(body.value, "id").Some? && Field(body.value, "id").value.JString?
    && Field(body.value, "id").value.s in table
    && (Field(body.value, "completed").None? || Field(body.value, "completed").value.JBool?)
  }

  /** `PATCH`: `prisma.task.update({where: {id}, data: {completed}})` on a table
      keyed by id.  An unknown or non-string id, or a non-boolean `completed`,
      makes the update throw (500); an absent `completed` is an update of no fields. */
  function Patch(body: Option<JsonValue>, table: map<string, Task>): (r: (Reply, map<string, Task>))
    ensures r.0.status == 200 <==> PatchAccepted(body, table)
    ensures !PatchAccepted(body, table) ==> r == (Reply(500, ErrorBody(ToggleFailed)), table)
    ensures PatchAccepted(body, table) ==>
              var id := Field(body.value, "id").value.s;
              && r.1.Keys == table.Keys
              // only the completed field of that one row can change
              && (forall k :: k in table && k != id ==> r.1[k] == table[k])
              && r.1[id] == table[id].(completed := r.1[id].completed)
              // it becomes the requested value, or stays when none was sent
              && (Field(body.value, "completed").Some? ==> r.1[id].completed == Field(body.value, "completed").value.b)
              && (Field(body.value, "completed").None? ==> r.1 == table)
              && r.0 == Reply(200, RowBody(r.1[id]))
  {
    if body.None? then (Reply(500, ErrorBody(ToggleFailed)), table)
    else
      var id := Field(body.value, "id");
      var completed := Field(body.value, "completed");
      if body.value == JNull || id.None? || !id.value.JString? || id.value.s !in table then
        (Reply(500, ErrorBody(ToggleFailed)), table)
      else if completed.Some? && !completed.value.JBool? then
        (Reply(500, ErrorBody(ToggleFailed)), table)
      else
        var row := table[id.value.s];
        var updated := if completed.Some? then row.(completed := completed.value.b) else row;
        (Reply(200, RowBody(updated)), table[id.value.s := updated])
  }
}
