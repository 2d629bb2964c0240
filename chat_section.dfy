/** src/components/Views/ChatSection.tsx: the chat transcript, input box,
    loading flag and toast, and what `handleSubmit` does with the AI's reply.
    The AI service, `JSON.parse` and the store are oracles. */
module ChatSection {
  import opened Wrappers
  import opened Json
  import opened TaskTypes
  import opened JsStrings
  import opened Service

  datatype Role = User | Assistant
  datatype Message = Message(role: Role, content: string)

  const Greeting := Message(Assistant,
    "Hi! I can help you create and manage tasks. Just tell me what you need to do, and I'll help you organize it. Try saying something like \"I need to drink water every 2 hours\" or \"Review project proposal by Friday\".")

  /** The parsed AI reply: its `action` (None when absent), its `task` payload and its `message`. */
  datatype Intent = Intent(action: Option<JsonValue>, task: JsonValue, message: string)

  predicate IsCreate(i: Intent) {
    i.action == Some(JString("create_task"))
  }

  const AiErrorPrefix := "Sorry, I encountered an error: "
  const ResponseErrorPrefix := "There was an error with the response: "
  const DatabaseErrorPrefix := "There was an error creating the task in the database: "

  /** The outcome of one accepted submission once the AI has answered: the
      assistant's reply, the toast to show (None leaves the toast as it was),
      and the argument `createTask` was called with (None when it was not called). */
  datatype Reaction = Reaction(reply: string, toast: Option<Toast>, created: Option<JsonValue>)

  /** `ai` is what `aiService.processPrompt` settled to; `parse` stands for
      `JSON.parse` followed by reading `parsed.action` (a throw from either
      lands in the same catch); `create` is the store's answer to `createTask`. */
  function ReplyOutcome(ai: Outcome<string>, parse: string -> Outcome<Intent>, create: Fetch<JsonValue>): (r: Reaction)
    // the AI call failed: the same apology in the toast and the transcript, no task
    ensures ai.Threw? ==>
              r.reply == AiErrorPrefix + Describe(ai.exception)
              && r.toast == Some(ErrToast(r.reply)) && r.created.None?
    // the reply does not parse: the same complaint in both places, createTask never called
    ensures ai.Returned? && parse(ai.value).Threw? ==>
              r.reply == ResponseErrorPrefix + Describe(parse(ai.value).exception)
              && r.toast == Some(ErrToast(r.reply)) && r.created.None?
    // createTask is called exactly for the create_task action, with parsed.task
    ensures r.created.Some? <==> ai.Returned? && parse(ai.value).Returned? && IsCreate(parse(ai.value).value)
    ensures r.created.Some? ==> r.created.value == parse(ai.value).value.task
    // any other action only relays the message and leaves the toast alone
    ensures ai.Returned? && parse(ai.value).Returned? && !IsCreate(parse(ai.value).value) ==>
              r.reply == parse(ai.value).value.message && r.toast.None?
    // create_task: all three outcomes set the toast
    ensures r.created.Some? ==> r.toast.Some?
    ensures r.created.Some? && Settle(create).Returned? ==>
              r.reply == parse(ai.value).value.message
              && r.toast == Some(if Truthy(Settle(create).value) then OkToast("Task Created Successfully!")
                                 else ErrToast("Created task returned null"))
    ensures r.created.Some? && Settle(create).Threw? ==>
              r.reply == DatabaseErrorPrefix + Describe(Settle(create).exception)
              && r.toast == Some(ErrToast(r.reply))
  {
    match ai
    case Threw(e) =>
      var text := AiErrorPrefix + Describe(e);
      Reaction(text, Some(ErrToast(text)), None)
    case Returned(response) =>
      match parse(response)
      case Threw(e) =>
        var text := ResponseErrorPrefix + Describe(e);
        Reaction(text, Some(ErrToast(text)), None)
      case Returned(parsed) =>
        if !IsCreate(parsed) then Reaction(parsed.message, None, None)
        else
          match Settle(create)
          case Returned(saved) =>
            if Truthy(saved) then Reaction(parsed.message, Some(OkToast("Task Created Successfully!")), Some(parsed.task))
            else Reaction(parsed.message, Some(ErrToast("Created task returned null")), Some(parsed.task))
          case Threw(e) =>
            var text := DatabaseErrorPrefix + Describe(e);
            Reaction(text, Some(ErrToast(text)), Some(parsed.task))
  }

  /** A success toast appears only when a task was created and the store handed back a truthy task. */
  lemma SuccessOnlyOnCreation(ai: Outcome<string>, parse: string -> Outcome<Intent>, create: Fetch<JsonValue>)
    ensures var r := ReplyOutcome(ai, parse, create);
            r.toast.Some? && r.toast.value.kind == SuccessToast <==>
              r.created.Some? && Settle(create).Returned? && Truthy(Settle(create).value)
  {
  }

  /** The chat view.  `handleSubmit` suspends at the AI call: `Submit` is the
      part before the `await`, `Complete` the part after it; `pending` holds
      the prompt of the suspended submission. */
  class ChatView {
    var toast: Option<Toast>
    var loading: bool
    var messages: seq<Message>
    var input: string
    var pending: Option<string>

    /** `loading` is set exactly while a submission awaits the AI. */
    ghost predicate Valid()
      reads this
    {
      loading <==> pending.Some?
    }

    constructor ()
      ensures Valid()
      ensures toast == None && !loading && messages == [Greeting] && input == "" && pending == None
    {
      toast := None;
      loading := false;
      messages := [Greeting];
      input := "";
      pending := None;
    }

    /** The input's `onChange`; the input is disabled while loading. */
    method Type(value: string)
      requires Valid() && !loading
      modifies this`input
      ensures Valid() && input == value
    {
      input := value;
    }

    /** The toast's `onClose`. */
    method DismissToast()
      requires Valid()
      modifies this`toast
      ensures Valid() && toast == None
    {
      toast := None;
    }

    /** `handleSubmit` up to the AI call.  Blank input, or a submission already
        loading, changes nothing; otherwise the input is cleared, the trimmed
        text joins the transcript as the user's message and is sent. */
    method Submit() returns (prompt: Option<string>)
      requires Valid()
      modifies this
      ensures Valid()
      ensures Trim(old(input)) == "" || old(loading) ==>
                prompt.None? && input == old(input) && messages == old(messages)
                && loading == old(loading) && pending == old(pending) && toast == old(toast)
      ensures Trim(old(input)) != "" && !old(loading) ==>
                && prompt == Some(Trim(old(input)))
                && input == ""
                && messages == old(messages) + [Message(User, Trim(old(input)))]
                && loading && pending == prompt && toast == old(toast)
    {
      if Trim(input) == "" || loading {
        return None;
      }
      var userMessage := Trim(input);
      input := "";
      messages := messages + [Message(User, userMessage)];
      loading := true;
      pending := Some(userMessage);
      prompt := pending;
    }

    /** `handleSubmit` after the AI call settled: exactly one assistant message
        is appended, the toast is set as `ReplyOutcome` says, and the `finally`
        clears `loading`. */
    method Complete(service: TaskService, ai: Outcome<string>, parse: string -> Outcome<Intent>,
                    create: Fetch<JsonValue>) returns (req: Option<Request>)
      requires Valid() && pending.Some?
      modifies this
      ensures Valid() && !loading
      ensures messages == old(messages) + [Message(Assistant, ReplyOutcome(ai, parse, create).reply)]
      ensures toast == if ReplyOutcome(ai, parse, create).toast.Some? then ReplyOutcome(ai, parse, create).toast else old(toast)
      ensures req.Some? <==> ReplyOutcome(ai, parse, create).created.Some?
      ensures req.Some? ==> req.value == service.CreateTask(ReplyOutcome(ai, parse, create).created.value, create).request
      ensures input == old(input)
    {
      var r := ReplyOutcome(ai, parse, create);
      messages := messages + [Message(Assistant, r.reply)];
      if r.toast.Some? {
        toast := r.toast;
      }
      req := None;
      if r.created.Some? {
        var c := service.CreateTask(r.created.value, create);
        req := Some(c.request);
      }
      loading := false;
      pending := None;
    }

    /** The whole `handleSubmit` when nothing else happens while the AI answers:
        an accepted submission adds exactly the user's message and one
        assistant reply, and ends with `loading` false. */
    method HandleSubmit(service: TaskService, ai: Outcome<string>, parse: string -> Outcome<Intent>,
                        create: Fetch<JsonValue>) returns (prompt: Option<string>, req: Option<Request>)
      requires Valid()
      modifies this
      ensures Valid()
      // exactly a non-blank input while no request is loading is accepted
      ensures prompt.Some? <==> Trim(old(input)) != "" && !old(loading)
      // a rejected submission changes nothing
      ensures prompt.None? ==>
                && messages == old(messages) && req.None? && input == old(input)
                && loading == old(loading) && pending == old(pending) && toast == old(toast)
      // an accepted one adds the user's message and one reply, sets the toast and createTask as ReplyOutcome decides
      ensures prompt.Some? ==>
                && prompt == Some(Trim(old(input)))
                && messages == old(messages) + [Message(User, prompt.value), Message(Assistant, ReplyOutcome(ai, parse, create).reply)]
                && !loading && input == ""
                && toast == (if ReplyOutcome(ai, parse, create).toast.Some? then ReplyOutcome(ai, parse, create).toast else old(toast))
                && (req.Some? <==> ReplyOutcome(ai, parse, create).created.Some?)
                && (req.Some? ==> req.value == service.CreateTask(ReplyOutcome(ai, parse, create).created.value, create).request)
    {
      prompt := Submit();
      req := None;
      if prompt.Some? {
        req := Complete(service, ai, parse, create);
      }
    }
  }
}
