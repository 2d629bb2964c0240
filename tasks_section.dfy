/** src/Components/Views/TasksSection.tsx: the in-memory task list, the single
    toast slot, and the toggle / delete / undo-restore flows over the service. */
module TasksSection {
  import opened Wrappers
  import opened TaskTypes
  import opened Service
  import opened TaskCard

  /** `tasks.find(t => t.id === id)`: the first task with that id. */
  function Find(tasks: seq<Task>, id: string): (r: Option<Task>)
    ensures r.None? <==> forall i :: 0 <= i < |tasks| ==> tasks[i].id != id
    ensures r.Some? ==> exists k :: 0 <= k < |tasks| && tasks[k] == r.value && r.value.id == id
                          && forall i :: 0 <= i < k ==> tasks[i].id != id
  {
    if tasks == [] then None
    else if tasks[0].id == id then Some(tasks[0])
    else
      var r := Find(tasks[1..], id);
      if r.Some? then
        ghost var k :| 0 <= k < |tasks[1..]| && tasks[1..][k] == r.value && r.value.id == id
                       && forall i :: 0 <= i < k ==> tasks[1..][i].id != id;
        assert tasks[k + 1] == r.value;
        r
      else r
  }

  /** `prev.map(t => t.id === updated.id ? updated : t)`: same length, same
      order, entries with the updated task's id replaced, every other entry kept. */
  function ReplaceById(tasks: seq<Task>, updated: Task): (r: seq<Task>)
    ensures |r| == |tasks|
    ensures forall i :: 0 <= i < |tasks| ==>
              r[i] == if tasks[i].id == updated.id then updated else tasks[i]
  {
    if tasks == [] then []
    else [if tasks[0].id == updated.id then updated else tasks[0]] + ReplaceById(tasks[1..], updated)
  }

  /** `prev.filter(t => t.id !== id)`. */
  function RemoveById(tasks: seq<Task>, id: string): (r: seq<Task>)
    ensures |r| <= |tasks|
    ensures forall t :: t in r <==> t in tasks && t.id != id
  {
    if tasks == [] then []
    else if tasks[0].id == id then RemoveById(tasks[1..], id)
    else [tasks[0]] + RemoveById(tasks[1..], id)
  }

  /** Removal keeps relative order: it distributes over concatenation, so the
      survivors of each part appear in the order the parts had. */
  lemma {:induction false} RemoveByIdConcat(a: seq<Task>, b: seq<Task>, id: string)
    ensures RemoveById(a + b, id) == RemoveById(a, id) + RemoveById(b, id)
  {
    if a == [] {
      assert a + b == b;
    } else {
      assert (a + b)[1..] == a[1..] + b;
      RemoveByIdConcat(a[1..], b, id);
    }
  }

  /** Removing an id that is absent changes nothing. */
  lemma {:induction false} RemoveAbsentId(tasks: seq<Task>, id: string)
    requires forall i :: 0 <= i < |tasks| ==> tasks[i].id != id
    ensures RemoveById(tasks, id) == tasks
  {
    if tasks != [] {
      RemoveAbsentId(tasks[1..], id);
    }
  }

  /** `tasks.filter(t => t.completed).length`. */
  function CompletedCount(tasks: seq<Task>): (n: nat)
    ensures n <= |tasks|
    ensures n == |tasks| <==> forall i :: 0 <= i < |tasks| ==> tasks[i].completed
  {
    if tasks == [] then 0
    else (if tasks[0].completed then 1 else 0) + CompletedCount(tasks[1..])
  }

  /** The completed count of a list grows by one for each completed task appended. */
  lemma {:induction false} CompletedCountAppend(tasks: seq<Task>, t: Task)
    ensures CompletedCount(tasks + [t]) == CompletedCount(tasks) + (if t.completed then 1 else 0)
  {
    if tasks != [] {
      assert (tasks + [t])[1..] == tasks[1..] + [t];
      CompletedCountAppend(tasks[1..], t);
    }
  }

  datatype HeaderColour = Yellow | Green

  /** The "completed / total" header is green exactly when every task is
      completed (so also for the empty list), yellow otherwise. */
  function HeaderColourOf(tasks: seq<Task>): (c: HeaderColour)
    ensures c == Green <==> forall i :: 0 <= i < |tasks| ==> tasks[i].completed
  {
    if CompletedCount(tasks) != |tasks| then Yellow else Green
  }

  /** Toast.tsx shows its Undo button only for `undo && onRestore`. */
  predicate ShowsUndo(toast: Option<Toast>) {
    toast.Some? && toast.value.undo && toast.value.restore.Some?
  }

  /** The list and toast slot of the page. */
  datatype View = View(tasks: seq<Task>, toast: Option<Toast>)

  /** How the page reacts once `toggleTask` settles. */
  function ToggleSettled(v: View, o: Outcome<Task>): (w: View)
    // success: every entry with the returned id replaced, nothing else; the toast tells which way it went
    ensures o.Returned? ==> w.tasks == ReplaceById(v.tasks, o.value)
    ensures o.Returned? ==> w.toast == Some(OkToast(if o.value.completed then "Task Complete!" else "Task complete undone"))
    // a cancelled toggle is absorbed without a trace
    ensures o.Threw? && o.exception.name == "AbortError" ==> w == v
    // any other failure leaves the list and reports an error
    ensures o.Threw? && o.exception.name != "AbortError" ==>
              w.tasks == v.tasks && w.toast == Some(ErrToast("Failed to toggle task: " + Describe(o.exception)))
  {
    match o
    case Returned(updated) =>
      var toast := OkToast(if updated.completed then "Task Complete!" else "Task complete undone");
      View(ReplaceById(v.tasks, updated), Some(toast))
    case Threw(e) =>
      if e.name == "AbortError" then v
      else View(v.tasks, Some(ErrToast("Failed to toggle task: " + Describe(e))))
  }

  /** The toast offered after a delete: its undo re-creates the id-less snapshot. */
  function DeletedToast(deleted: Task): (t: Toast)
    ensures t.message == "Task Deleted Successfully!" && t.kind == SuccessToast
    ensures ShowsUndo(Some(t)) && t.restore == Some(WithoutId(deleted))
  {
    Toast("Task Deleted Successfully!", SuccessToast, true, Some(WithoutId(deleted)))
  }

  /** How the page reacts once `deleteTask(id)` settles. */
  function DeleteSettled(v: View, id: string, o: Outcome<Task>): (w: View)
    ensures o.Returned? ==> w.tasks == RemoveById(v.tasks, id)
    ensures o.Returned? ==> w.toast == Some(DeletedToast(o.value))
    ensures o.Threw? ==> w.tasks == v.tasks && w.toast == Some(ErrToast("Failed to delete task: " + Describe(o.exception)))
  {
    match o
    case Returned(deleted) => View(RemoveById(v.tasks, id), Some(DeletedToast(deleted)))
    case Threw(e) => View(v.tasks, Some(ErrToast("Failed to delete task: " + Describe(e))))
  }

  /** How the page reacts once the undo's `createTask(snapshot)` settles. */
  function RestoreSettled(v: View, o: Outcome<Task>): (w: View)
    ensures o.Returned? ==> w.tasks == v.tasks + [o.value] && w.toast == Some(OkToast("Task Restored!"))
    ensures o.Threw? ==> w.tasks == v.tasks && w.toast == Some(ErrToast("Failed to restore task: " + Describe(o.exception)))
    ensures !ShowsUndo(w.toast)
  {
    match o
    case Returned(restored) => View(v.tasks + [restored], Some(OkToast("Task Restored!")))
    case Threw(e) => View(v.tasks, Some(ErrToast("Failed to restore task: " + Describe(e))))
  }

  /** The card the page renders inline for each task.  It is Task.tsx's card
      except that title and description are shown in full, and the interval
      badge appears for every recurring task, empty when no interval is set. */
  function RenderInlineCard(task: Task, dayOf: string -> Option<int>, today: int): (c: Card)
    ensures c.title == task.title
    ensures c.description.Some? <==> Present(task.description)
    ensures c.description.Some? ==> c.description == task.description
    ensures c.recurringBadge.Some? <==> task.recurring
    ensures c.recurringBadge.Some? ==> c.recurringBadge.value == task.recurringInterval.GetOr("")
    // style, due chip and priority are exactly those of Task.tsx's card
    ensures var card := RenderCard(task, dayOf, today);
            c == card.(title := c.title, description := c.description, recurringBadge := c.recurringBadge)
  {
    var card := RenderCard(task, dayOf, today);
    card.(title := task.title,
          description := if Present(task.description) then task.description else None,
          recurringBadge := if task.recurring then Some(task.recurringInterval.GetOr("")) else None)
  }

  /** For a short title and description and a recurring task that has its
      interval, the inline card and Task.tsx's card look the same. */
  lemma InlineCardMatchesTaskCard(task: Task, dayOf: string -> Option<int>, today: int)
    requires |task.title| <= TitleLimit
    requires Present(task.description) ==> |task.description.value| <= DescriptionLimit
    requires task.recurring ==> Present(task.recurringInterval)
    ensures RenderInlineCard(task, dayOf, today) == RenderCard(task, dayOf, today)
  {
  }

  /** The inline card's buttons: toggle and delete as on Task.tsx's card, and no edit button. */
  function InlineClick(task: Task, b: Button): (cb: Option<Callback>)
    ensures cb.None? <==> b == EditButton
    ensures cb.Some? ==> cb.value == Click(task, b)
  {
    if b == EditButton then None else Some(Click(task, b))
  }

  /** Ids are unique in the list. */
  predicate UniqueIds(tasks: seq<Task>) {
    forall i, j :: 0 <= i < j < |tasks| ==> tasks[i].id != tasks[j].id
  }

  /** Removing an id that exactly one task carries shortens the list by exactly one. */
  lemma {:induction false} RemoveUniqueId(tasks: seq<Task>, id: string)
    requires UniqueIds(tasks)
    requires exists k :: 0 <= k < |tasks| && tasks[k].id == id
    ensures |RemoveById(tasks, id)| == |tasks| - 1
  {
    if tasks[0].id == id {
      RemoveAbsentId(tasks[1..], id);
    } else {
      var k :| 0 <= k < |tasks| && tasks[k].id == id;
      assert tasks[1..][k - 1].id == id;
      RemoveUniqueId(tasks[1..], id);
    }
  }

  /** Delete then a successful undo, with unique ids: the deleted task is gone,
      the re-created one sits at the end, and the list has its old length again. */
  lemma DeleteThenRestore(v: View, id: string, deleted: Task, restored: Task)
    requires UniqueIds(v.tasks) && Find(v.tasks, id).Some?
    ensures var w := RestoreSettled(DeleteSettled(v, id, Returned(deleted)), Returned(restored));
            && w.tasks == RemoveById(v.tasks, id) + [restored]
            && |w.tasks| == |v.tasks|
            && w.toast == Some(OkToast("Task Restored!"))
  {
    RemoveUniqueId(v.tasks, id);
  }

  /** The page component.  Each method runs one handler to completion, with the
      network's answer supplied as a `Fetch`. */
  class TasksPage {
    var tasks: seq<Task>
    var toast: Option<Toast>

    /** `useState<Task[]>([])` and `useState<ToastProps | null>(null)`. */
    constructor ()
      ensures tasks == [] && toast == None
    {
      tasks := [];
      toast := None;
    }

    /** The mount effect: load the list, or report the failure and keep the empty list. */
    method Load(service: TaskService, f: Fetch<seq<Task>>) returns (req: Request)
      modifies this
      ensures req == service.GetTasks(f).request
      ensures match Settle(f)
              case Returned(ts) => tasks == ts && toast == old(toast)
              case Threw(e) => tasks == old(tasks) && toast == Some(ErrToast("Failed to fetch tasks: " + Describe(e)))
    {
      var c := service.GetTasks(f);
      req := c.request;
      match c.outcome
      case Returned(ts) =>
        tasks := ts;
      case Threw(e) =>
        toast := Some(ErrToast("Failed to fetch tasks: " + Describe(e)));
    }

    /** `toggleTask(id)`.  Returns the request issued, None when no task has the id. */
    method ToggleTask(id: string, service: TaskService, f: Fetch<Task>) returns (req: Option<Request>)
      requires service.Valid()
      modifies this, service, service.toggleController
      ensures service.Valid()
      // an unknown id: no service call, nothing changes
      ensures Find(old(tasks), id).None? ==>
                req.None? && tasks == old(tasks) && toast == old(toast)
                && service.toggleController == old(service.toggleController)
                && service.controllers == old(service.controllers)
                && (old(service.toggleController) != null ==>
                      service.toggleController.aborted == old(service.toggleController.aborted))
      // a known id: the previous toggle is cancelled and a fresh controller takes the slot
      ensures Find(old(tasks), id).Some? ==>
                && fresh(service.toggleController) && !service.toggleController.aborted
                && (old(service.toggleController) != null ==> old(service.toggleController).aborted)
                && service.controllers == old(service.controllers) + [service.toggleController]
      // the store is asked, under that controller's signal, for the negation of the task's current state
      ensures Find(old(tasks), id).Some? ==>
                && req == Some(Request(PATCH, TasksUrl, Some(ToggleBody(id, !Find(old(tasks), id).value.completed)),
                                       service.toggleController))
                && View(tasks, toast) == ToggleSettled(View(old(tasks), old(toast)), Settle(f))
    {
      var task := Find(tasks, id);
      if task.None? {
        return None;
      }
      var c := service.ToggleTask(task.value.id, !task.value.completed, f);
      req := Some(c.request);
      var w := ToggleSettled(View(tasks, toast), c.outcome);
      tasks, toast := w.tasks, w.toast;
    }

    /** `deleteTask(id)`: the list changes only after the remote delete succeeded. */
    method DeleteTask(id: string, service: TaskService, f: Fetch<Task>) returns (req: Option<Request>)
      modifies this
      ensures Find(old(tasks), id).None? ==> req.None? && tasks == old(tasks) && toast == old(toast)
      ensures Find(old(tasks), id).Some? ==>
                && req == Some(service.DeleteTask(id, f).request)
                && View(tasks, toast) == DeleteSettled(View(old(tasks), old(toast)), id, Settle(f))
    {
      var task := Find(tasks, id);
      if task.None? {
        return None;
      }
      var c := service.DeleteTask(task.value.id, f);
      req := Some(c.request);
      var w := DeleteSettled(View(tasks, toast), id, c.outcome);
      tasks, toast := w.tasks, w.toast;
    }

    /** A click on the toast's Undo button: runs `onRestore`, which re-creates
        the snapshot through `createTask`.  Without an Undo button there is
        nothing to click and nothing happens. */
    method Restore(service: TaskService, f: Fetch<Task>) returns (req: Option<Request>)
      modifies this
      ensures !ShowsUndo(old(toast)) ==> req.None? && tasks == old(tasks) && toast == old(toast)
      ensures ShowsUndo(old(toast)) ==>
                && req == Some(service.CreateTask(EncodeDraft(old(toast).value.restore.value), f).request)
                && View(tasks, toast) == RestoreSettled(View(old(tasks), old(toast)), Settle(f))
    {
      if !ShowsUndo(toast) {
        return None;
      }
      var c := service.CreateTask(EncodeDraft(toast.value.restore.value), f);
      req := Some(c.request);
      var w := RestoreSettled(View(tasks, toast), c.outcome);
      tasks, toast := w.tasks, w.toast;
    }

    /** The toast's `onClose` (its Close button or its 3 s timer): `setToast(null)`. */
    method DismissToast()
      modifies this
      ensures tasks == old(tasks) && toast == None
    {
      toast := None;
    }

    /** The header: "completed / total" and its colour. */
    method Header() returns (completed: nat, total: nat, colour: HeaderColour)
      ensures completed <= total && total == |tasks|
      ensures completed == CompletedCount(tasks)
      ensures colour == Green <==> completed == total
    {
      completed, total := CompletedCount(tasks), |tasks|;
      colour := HeaderColourOf(tasks);
    }
  }
}
