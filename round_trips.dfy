/** What the client's requests do once the route handlers of
    src/app/api/tasks/route.ts receive them. */
module RoundTrips {
  import opened Wrappers
  import opened Json
  import opened TaskTypes
  import opened JsStrings
  import opened Service
  import opened TasksRoute

  /** The toggle body `{id, completed}` sets exactly that row's `completed`
      to the requested value; an unknown id is a 500 that changes nothing. */
  lemma TogglePatchesOneField(id: string, completed: bool, table: map<string, Task>)
    ensures var (reply, after) := Patch(Some(ToggleBody(id, completed)), table);
            && (id in table ==>
                  after == table[id := table[id].(completed := completed)]
                  && reply == Reply(200, RowBody(table[id].(completed := completed))))
            && (id !in table ==> after == table && reply == Reply(500, ErrorBody(ToggleFailed)))
  {
  }

  /** The undo snapshot of a stored task passes every POST check, and the
      record created from it keeps the title (already trimmed), description,
      priority, recurring flag and due date.  Its `completed`,
      `recurringInterval` and `createdAt` are not part of the record: a task
      deleted while completed comes back with whatever the database defaults. */
  lemma RestoreSnapshotIsAccepted(d: Draft, instantOf: JsonValue -> Option<int>)
    requires d.title != "" && !IsSpace(d.title[0]) && !IsSpace(d.title[|d.title| - 1])
    requires Present(d.dueDate) ==> instantOf(JString(d.dueDate.value)).Some?
    ensures ValidateCreate(EncodeDraft(d), instantOf) == Success(TaskRecord(
              d.title,
              if Present(d.description) then Some(JString(d.description.value)) else None,
              if Present(d.dueDate) then instantOf(JString(d.dueDate.value)) else None,
              d.priority,
              d.recurring))
  {
    var body := EncodeDraft(d);
    TrimIdentity(d.title);
    TrimEmptyIff(d.title);
    PriorityNameRoundTrip(d.priority);
    assert PriorityOrDefault(body) == JString(PriorityName(d.priority));
    ValidateCreateAccepts(body, instantOf);
  }

  /** A stored title is always trimmed and non-empty, because POST stores `title.trim()` only after checking it. */
  lemma StoredTitleIsTrimmed(body: JsonValue, instantOf: JsonValue -> Option<int>)
    requires CreateAccepted(body, instantOf)
    ensures ValidateCreate(body, instantOf).Success?
    ensures var t := ValidateCreate(body, instantOf).value.title;
            Trim(t) == t && t != ""
  {
    TrimIdempotent(Field(body, "title").value.s);
  }
}
