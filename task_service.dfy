/** src/services/taskService.ts.  The network is an oracle: each call is handed
    the `Fetch` the network would produce for its request (a rejection, or a
    response whose JSON body has already been parsed). */
module Service {
  import opened Wrappers
  import opened Json
  import opened TaskTypes

  /** A parsed response: `res.ok` with the payload, or not ok with the server's `error` text. */
  datatype Response<T> = Ok(body: T) | NotOk(error: string)

  /** What `fetch` settles to: rejected (network failure, or an AbortError once
      its signal was aborted), or a response. */
  datatype Fetch<T> = Rejected(reason: Exception) | Responded(response: Response<T>)

  /** What an awaited service call settles to: a returned value or a thrown error. */
  datatype Outcome<T> = Returned(value: T) | Threw(exception: Exception)

  /** The rule every operation shares: a response that is not ok throws an
      `Error` carrying the server's `error` text, an ok one returns its parsed
      body unchanged, and a rejected fetch propagates its reason. */
  function Settle<T>(f: Fetch<T>): (r: Outcome<T>)
    ensures r.Returned? <==> f.Responded? && f.response.Ok?
    ensures r.Returned? ==> r.value == f.response.body
    ensures f.Responded? && f.response.NotOk? ==> r == Threw(Exception("Error", f.response.error))
    ensures f.Rejected? ==> r == Threw(f.reason)
  {
    match f
    case Rejected(e) => Threw(e)
    case Responded(Ok(v)) => Returned(v)
    case Responded(NotOk(msg)) => Threw(Exception("Error", msg))
  }

  /** A browser AbortController, reduced to whether it has been aborted. */
  class AbortController {
    var aborted: bool

    constructor ()
      ensures !aborted
    {
      aborted := false;
    }

    method Abort()
      modifies this
      ensures aborted
    {
      aborted := true;
    }
  }

  datatype HttpMethod = GET | POST | PATCH | DELETE

  /** A request as handed to `fetch`: method, JSON body (if any) and abort signal (if any). */
  datatype Request = Request(verb: HttpMethod, url: string, body: Option<JsonValue>, signal: AbortController?)

  const TasksUrl := "api/tasks"

  /** The exact body of a toggle request: `{id, completed}` and nothing else. */
  function ToggleBody(id: string, completed: bool): (v: JsonValue)
    ensures v.JObject? && v.fields.Keys == {"id", "completed"}
    ensures Field(v, "id") == Some(JString(id)) && Field(v, "completed") == Some(JBool(completed))
  {
    JObject(map["id" := JString(id), "completed" := JBool(completed)])
  }

  /** One service call: the request it issued and what it settled to. */
  datatype Call<T> = Call(request: Request, outcome: Outcome<T>)

  /** The service object.  Only `toggleTask` touches the module-level
      `toggleController`; the other operations are functions without a reads
      clause, so they can neither read nor change it. */
  class TaskService {
    var toggleController: AbortController?
    /** Every controller `toggleTask` has created, oldest first. */
    ghost var controllers: seq<AbortController>

    /** The slot holds the newest controller (null only before the first toggle),
        every older controller has been aborted, and none repeats. */
    ghost predicate Valid()
      reads this, controllers
    {
      && (toggleController == null <==> controllers == [])
      && (controllers != [] ==> toggleController == controllers[|controllers| - 1])
      && (forall i :: 0 <= i < |controllers| - 1 ==> controllers[i].aborted)
      && (forall i, j :: 0 <= i < j < |controllers| ==> controllers[i] != controllers[j])
    }

    /** At most one controller is live: a controller that is not aborted is the one in the slot. */
    lemma AtMostOneLive()
      requires Valid()
      ensures forall i :: 0 <= i < |controllers| && !controllers[i].aborted ==> controllers[i] == toggleController
    {
    }

    /** Module load: `let toggleController = null`. */
    constructor ()
      ensures Valid() && toggleController == null && controllers == []
    {
      toggleController := null;
      controllers := [];
    }

    function GetTasks(f: Fetch<seq<Task>>): (c: Call<seq<Task>>)
      ensures c.request == Request(GET, TasksUrl, None, null)
      ensures c.outcome == Settle(f)
    {
      Call(Request(GET, TasksUrl, None, null), Settle(f))
    }

    /** `createTask(task)`: POSTs the task serialised as JSON. */
    function CreateTask<T>(task: JsonValue, f: Fetch<T>): (c: Call<T>)
      ensures c.request == Request(POST, TasksUrl, Some(task), null)
      ensures c.outcome == Settle(f)
    {
      Call(Request(POST, TasksUrl, Some(task), null), Settle(f))
    }

    /** `deleteTask(id)`: DELETE with body `{id}`. */
    function DeleteTask(id: string, f: Fetch<Task>): (c: Call<Task>)
      ensures c.request == Request(DELETE, TasksUrl, Some(JObject(map["id" := JString(id)])), null)
      ensures c.outcome == Settle(f)
    {
      Call(Request(DELETE, TasksUrl, Some(JObject(map["id" := JString(id)])), null), Settle(f))
    }

    /** `toggleTask(id, completed)`: aborts whatever controller the slot holds
        (even one whose request has long settled), installs a fresh one and
        PATCHes `{id, completed}` with the fresh controller's signal. */
    method ToggleTask(id: string, completed: bool, f: Fetch<Task>) returns (c: Call<Task>)
      requires Valid()
      modifies this, toggleController
      ensures Valid()
      ensures old(toggleController) != null ==> old(toggleController).aborted
      ensures fresh(toggleController) && !toggleController.aborted
      ensures controllers == old(controllers) + [toggleController]
      ensures c.request == Request(PATCH, TasksUrl, Some(ToggleBody(id, completed)), toggleController)
      ensures c.outcome == Settle(f)
    {
      if toggleController != null {
        toggleController.Abort();
      }
      toggleController := new AbortController();
      controllers := controllers + [toggleController];
      c := Call(Request(PATCH, TasksUrl, Some(ToggleBody(id, completed)), toggleController), Settle(f));
    }
  }
}
