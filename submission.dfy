/** The new-todo form of the controller as a state machine. The asynchronous
    create request is split into the events its promise chain delivers: the
    submit handler starts it, then exactly one of "created" (the then
    callback) or "create failed" (the catch callback) runs, and then
    "settled" (the finally callback). */
module Submission {
  import opened Wrappers
  import opened Todos
  import opened JsString

  const EmptyTitleError := "Title should not be empty"
  const AddTodoError := "Unable to add a todo"

  /** The body of a create request: a todo without an id. */
  datatype NewTodo = NewTodo(title: string, completed: bool, userId: int)

  /** How far one create request's promise chain has run. */
  datatype Phase = Pending | Fulfilled | Rejected | Settled

  /** A create request issued through the API client, with its payload. */
  datatype Request = Request(payload: NewTodo, phase: Phase)

  /** A call to one of the shared context's two error hooks; only the call
      and its argument are recorded. */
  datatype ErrorCall = SetErrorMessage(message: string) | SetError(message: string)

  /** The form's state: the typed title; the placeholder shown while a
      request runs; whether the input element is attached to the shared ref
      and whether it is disabled; the current user; and, as calls into
      collaborators outside this model, every create request issued, every
      error-hook call and every record handed to the shared list's add hook,
      each in call order. */
  datatype Form = Form(
    title: string,
    tempTodo: Option<Todo>,
    inputAttached: bool,
    inputDisabled: bool,
    userId: int,
    requests: seq<Request>,
    errorCalls: seq<ErrorCall>,
    added: seq<Todo>)

  datatype Event =
    | TitleChanged(value: string)
    | Submitted
    | Created(request: nat, todo: Todo)
    | CreateFailed(request: nat)
    | CreateSettled(request: nat)

  /** A title the form refuses: nothing left after trimming. */
  predicate IsBlank(title: string) {
    |Trim(title)| == 0
  }

  /** The placeholder shown for a payload: the payload with id 0. */
  function Placeholder(p: NewTodo): Todo {
    Todo(0, p.title, p.completed, p.userId)
  }

  /** The message of the latest error-hook call: the error on screen, if any
      hook was called. */
  function ErrorShown(f: Form): Option<string> {
    if f.errorCalls == [] then None else Some(f.errorCalls[|f.errorCalls| - 1].message)
  }

  function Init(inputAttached: bool, userId: int): Form {
    Form("", None, inputAttached, false, userId, [], [], [])
  }

  /** Moves request `i` to phase `phase`. */
  function WithPhase(requests: seq<Request>, i: nat, phase: Phase): (r: seq<Request>)
    requires i < |requests|
    ensures |r| == |requests| && r[i] == requests[i].(phase := phase)
    ensures forall k :: 0 <= k < |r| && k != i ==> r[k] == requests[k]
  {
    requests[i := requests[i].(phase := phase)]
  }

  /** The change handler: the typed text becomes the title and nothing else
      changes. */
  function OnTitleChange(f: Form, value: string): (r: Form)
    ensures r.title == value
    ensures r.(title := f.title) == f
  {
    f.(title := value)
  }

  /** The submit handler. It always clears the error message first. A blank
      title then raises the validation error and nothing else. Any other
      title disables the attached input, shows a placeholder and issues one
      create request, placeholder and request carrying the trimmed title. */
  function OnSubmit(f: Form): Form {
    var cleared := f.(errorCalls := f.errorCalls + [SetErrorMessage("")]);
    if IsBlank(f.title) then
      cleared.(errorCalls := cleared.errorCalls + [SetError(EmptyTitleError)])
    else
      var newTodo := NewTodo(Trim(f.title), false, f.userId);
      cleared.(inputDisabled := if f.inputAttached then true else f.inputDisabled,
               tempTodo := Some(Placeholder(newTodo)),
               requests := f.requests + [Request(newTodo, Pending)])
  }

  /** The then callback: the server's record goes to the shared list's add
      hook unchanged, the placeholder is dropped and the title is reset. */
  function OnCreated(f: Form, i: nat, todo: Todo): (r: Form)
    requires i < |f.requests| && f.requests[i].phase == Pending
  {
    f.(added := f.added + [todo], tempTodo := None, title := "",
       requests := WithPhase(f.requests, i, Fulfilled))
  }

  /** The catch callback: only the error is raised; title and placeholder
      stay. */
  function OnCreateFailed(f: Form, i: nat): (r: Form)
    requires i < |f.requests| && f.requests[i].phase == Pending
  {
    f.(errorCalls := f.errorCalls + [SetError(AddTodoError)],
       requests := WithPhase(f.requests, i, Rejected))
  }

  /** The finally callback: when the input is attached it is re-enabled and
      the placeholder dropped; otherwise nothing on screen changes. */
  function OnSettled(f: Form, i: nat): (r: Form)
    requires i < |f.requests| && f.requests[i].phase in {Fulfilled, Rejected}
  {
    var g := f.(requests := WithPhase(f.requests, i, Settled));
    if f.inputAttached then g.(inputDisabled := false, tempTodo := None) else g
  }

  /** Submitting a blank title: the error shown is exactly "Title should not
      be empty", no request is issued, and title, placeholder and input are
      as they were. */
  lemma SubmitBlank(f: Form)
    requires IsBlank(f.title)
    ensures OnSubmit(f) == f.(errorCalls := f.errorCalls + [SetErrorMessage(""), SetError(EmptyTitleError)])
    ensures ErrorShown(OnSubmit(f)) == Some(EmptyTitleError)
  {
    assert f.errorCalls + [SetErrorMessage("")] + [SetError(EmptyTitleError)]
        == f.errorCalls + [SetErrorMessage(""), SetError(EmptyTitleError)];
  }

  /** Submitting a non-blank title: the error is cleared, an attached input
      is disabled, the placeholder is the trimmed title with id 0, and one
      request is issued whose payload has the same title, completed false
      and the current user. The typed title is kept. */
  lemma SubmitNonBlank(f: Form)
    requires !IsBlank(f.title)
    ensures ErrorShown(OnSubmit(f)) == Some("")
    ensures f.inputAttached ==> OnSubmit(f).inputDisabled
    ensures OnSubmit(f).tempTodo == Some(Todo(0, Trim(f.title), false, f.userId))
    ensures OnSubmit(f).requests == f.requests + [Request(NewTodo(Trim(f.title), false, f.userId), Pending)]
    ensures Placeholder(OnSubmit(f).requests[|f.requests|].payload) == OnSubmit(f).tempTodo.value
    ensures OnSubmit(f).title == f.title && OnSubmit(f).added == f.added
  {
  }

  /** A successful create: the add hook receives the server's record as it
      came, no placeholder is shown and the typed title is empty. */
  lemma CreatedEffects(f: Form, i: nat, todo: Todo)
    requires i < |f.requests| && f.requests[i].phase == Pending
    ensures OnCreated(f, i, todo).added == f.added + [todo]
    ensures OnCreated(f, i, todo).tempTodo == None && OnCreated(f, i, todo).title == ""
    ensures OnCreated(f, i, todo).errorCalls == f.errorCalls
    ensures OnCreated(f, i, todo).inputDisabled == f.inputDisabled
  {
  }

  /** A failed create: the error shown is exactly "Unable to add a todo";
      the typed title, the placeholder and the input are left as they were. */
  lemma FailedEffects(f: Form, i: nat)
    requires i < |f.requests| && f.requests[i].phase == Pending
    ensures ErrorShown(OnCreateFailed(f, i)) == Some(AddTodoError)
    ensures OnCreateFailed(f, i).title == f.title && OnCreateFailed(f, i).tempTodo == f.tempTodo
    ensures OnCreateFailed(f, i).inputDisabled == f.inputDisabled && OnCreateFailed(f, i).added == f.added
  {
  }

  /** The finally step: with the input attached it leaves the input enabled
      and no placeholder; without it, the screen state is untouched. */
  lemma SettledEffects(f: Form, i: nat)
    requires i < |f.requests| && f.requests[i].phase in {Fulfilled, Rejected}
    ensures f.inputAttached ==> !OnSettled(f, i).inputDisabled && OnSettled(f, i).tempTodo == None
    ensures !f.inputAttached ==>
      OnSettled(f, i).inputDisabled == f.inputDisabled && OnSettled(f, i).tempTodo == f.tempTodo
    ensures OnSettled(f, i).title == f.title && OnSettled(f, i).errorCalls == f.errorCalls
  {
  }

  /** The input can be typed into and submitted: the browser delivers no
      change or submit event from a disabled input. */
  predicate InputUsable(f: Form) {
    !(f.inputAttached && f.inputDisabled)
  }

  /** Whether an event can happen now: user events need a usable input, and a
      request's callbacks run only in the order its promise chain runs them. */
  predicate Enabled(f: Form, e: Event) {
    match e
    case TitleChanged(_) => InputUsable(f)
    case Submitted => InputUsable(f)
    case Created(i, _) => i < |f.requests| && f.requests[i].phase == Pending
    case CreateFailed(i) => i < |f.requests| && f.requests[i].phase == Pending
    case CreateSettled(i) => i < |f.requests| && f.requests[i].phase in {Fulfilled, Rejected}
  }

  function Step(f: Form, e: Event): (r: Form)
    requires Enabled(f, e)
    ensures r.inputAttached == f.inputAttached && r.userId == f.userId
  {
    match e
    case TitleChanged(value) => OnTitleChange(f, value)
    case Submitted => OnSubmit(f)
    case Created(i, todo) => OnCreated(f, i, todo)
    case CreateFailed(i) => OnCreateFailed(f, i)
    case CreateSettled(i) => OnSettled(f, i)
  }

  /** The state after a schedule of events, or None if some event in it
      could not have happened. */
  function Run(f: Form, events: seq<Event>): (r: Option<Form>)
    ensures r.Some? ==> r.value.inputAttached == f.inputAttached && r.value.userId == f.userId
    decreases |events|
  {
    if events == [] then Some(f)
    else if Enabled(f, events[0]) then Run(Step(f, events[0]), events[1..])
    else None
  }

  /** Every request has run its finally callback. */
  predicate AllSettled(requests: seq<Request>) {
    forall i :: 0 <= i < |requests| ==> requests[i].phase == Settled
  }

  /** A create payload as the form builds it: a trimmed, non-empty title,
      completed false and the current user. */
  predicate IsCleanPayload(p: NewTodo, userId: int) {
    p.title != [] && IsTrimmed(p.title) && !p.completed && p.userId == userId
  }

  predicate PayloadsOk(f: Form) {
    forall i :: 0 <= i < |f.requests| ==> IsCleanPayload(f.requests[i].payload, f.userId)
  }

  /** A shown placeholder is the placeholder of the latest request. */
  predicate PlaceholderOk(f: Form) {
    f.tempTodo.Some? ==>
      |f.requests| > 0 && f.tempTodo.value == Placeholder(f.requests[|f.requests| - 1].payload)
  }

  /** The latest request has not run its finally callback yet. */
  predicate LatestUnsettled(requests: seq<Request>) {
    |requests| > 0 && requests[|requests| - 1].phase != Settled
  }

  /** With the input attached: every request but the latest has settled, the
      input is disabled exactly while the latest has not, and a placeholder is
      shown only then. A detached input is never disabled. */
  predicate FlightOk(f: Form) {
    if f.inputAttached then
      && (forall i :: 0 <= i < |f.requests| - 1 ==> f.requests[i].phase == Settled)
      && (f.inputDisabled <==> LatestUnsettled(f.requests))
      && (f.tempTodo.Some? ==> f.inputDisabled)
    else
      !f.inputDisabled
  }

  /** The invariant of every reachable form state. */
  predicate Inv(f: Form) {
    PayloadsOk(f) && PlaceholderOk(f) && FlightOk(f)
  }

  lemma InitInv(inputAttached: bool, userId: int)
    ensures Inv(Init(inputAttached, userId))
  {
  }

  lemma SubmitKeepsInv(f: Form)
    requires Inv(f) && InputUsable(f)
    ensures Inv(OnSubmit(f))
  {
    if !IsBlank(f.title) {
      var r := OnSubmit(f);
      assert IsCleanPayload(r.requests[|f.requests|].payload, f.userId);
      if f.inputAttached {
        assert !LatestUnsettled(f.requests);
      }
    }
  }

  lemma CreatedKeepsInv(f: Form, i: nat, todo: Todo)
    requires Inv(f) && i < |f.requests| && f.requests[i].phase == Pending
    ensures Inv(OnCreated(f, i, todo))
  {
    if f.inputAttached {
      assert i == |f.requests| - 1;
    }
  }

  lemma FailedKeepsInv(f: Form, i: nat)
    requires Inv(f) && i < |f.requests| && f.requests[i].phase == Pending
    ensures Inv(OnCreateFailed(f, i))
  {
    if f.inputAttached {
      assert i == |f.requests| - 1;
    }
  }

  lemma SettledKeepsInv(f: Form, i: nat)
    requires Inv(f) && i < |f.requests| && f.requests[i].phase in {Fulfilled, Rejected}
    ensures Inv(OnSettled(f, i))
  {
    if f.inputAttached {
      assert i == |f.requests| - 1;
      assert !LatestUnsettled(OnSettled(f, i).requests);
    }
  }

  /** Every event keeps the invariant. */
  lemma StepKeepsInv(f: Form, e: Event)
    requires Inv(f) && Enabled(f, e)
    ensures Inv(Step(f, e))
  {
    match e
    case TitleChanged(_) =>
    case Submitted => SubmitKeepsInv(f);
    case Created(i, todo) => CreatedKeepsInv(f, i, todo);
    case CreateFailed(i) => FailedKeepsInv(f, i);
    case CreateSettled(i) => SettledKeepsInv(f, i);
  }

  /** Every state a schedule reaches from an invariant state keeps it. */
  lemma {:induction false} RunKeepsInv(f: Form, events: seq<Event>)
    requires Inv(f)
    ensures Run(f, events).Some? ==> Inv(Run(f, events).value)
    decreases |events|
  {
    if events != [] && Enabled(f, events[0]) {
      StepKeepsInv(f, events[0]);
      RunKeepsInv(Step(f, events[0]), events[1..]);
    }
  }

  /** With the input attached, once every request has settled the input is
      enabled again and no placeholder is shown, whatever happened before. */
  lemma SettledFormIsIdle(inputAttached: bool, userId: int, events: seq<Event>)
    requires Run(Init(inputAttached, userId), events).Some?
    requires inputAttached && AllSettled(Run(Init(inputAttached, userId), events).value.requests)
    ensures !Run(Init(inputAttached, userId), events).value.inputDisabled
    ensures Run(Init(inputAttached, userId), events).value.tempTodo == None
  {
    InitInv(inputAttached, userId);
    RunKeepsInv(Init(inputAttached, userId), events);
    assert !LatestUnsettled(Run(Init(inputAttached, userId), events).value.requests);
  }

  /** Every create request ever issued carries a non-blank title, completed
      false and the current user. */
  lemma RequestsCarryCleanTitles(inputAttached: bool, userId: int, events: seq<Event>, i: nat)
    requires Run(Init(inputAttached, userId), events).Some?
    requires i < |Run(Init(inputAttached, userId), events).value.requests|
    ensures var p := Run(Init(inputAttached, userId), events).value.requests[i].payload;
      !IsBlank(p.title) && !p.completed && p.userId == userId
  {
    InitInv(inputAttached, userId);
    RunKeepsInv(Init(inputAttached, userId), events);
    var p := Run(Init(inputAttached, userId), events).value.requests[i].payload;
    assert IsCleanPayload(p, userId);
    TrimOfTrimmed(p.title);
  }

  /** With the input attached, no second request can start while one runs:
      the only unsettled request is the latest, and the input is disabled. */
  lemma SingleFlight(f: Form, i: nat)
    requires Inv(f) && f.inputAttached
    requires i < |f.requests| && f.requests[i].phase != Settled
    ensures i == |f.requests| - 1 && f.inputDisabled
  {
  }

  /** The input is attached and enabled and no placeholder is shown. */
  predicate Idle(f: Form) {
    f.inputAttached && !f.inputDisabled && f.tempTodo == None
  }

  /** With the input attached, a reachable form the user can type into is
      idle: no placeholder lingers once the input is enabled. */
  lemma UsableFormIsIdle(f: Form)
    requires Inv(f) && f.inputAttached && InputUsable(f)
    ensures Idle(f)
  {
  }

  /** A non-blank submission from an idle form, as one state. */
  lemma SubmitFromIdle(f: Form)
    requires Idle(f) && !IsBlank(f.title)
    ensures OnSubmit(f) ==
      f.(inputDisabled := true,
         tempTodo := Some(Placeholder(NewTodo(Trim(f.title), false, f.userId))),
         requests := f.requests + [Request(NewTodo(Trim(f.title), false, f.userId), Pending)],
         errorCalls := f.errorCalls + [SetErrorMessage("")])
  {
  }

  /** A whole successful submission from an idle form: the submit, then
      and finally handlers run in turn; the server record reaches the add
      hook, the error is cleared, the title is reset and the form is idle
      again. */
  lemma SubmitThenCreated(f: Form, todo: Todo)
    requires Idle(f) && !IsBlank(f.title)
    ensures var n := |f.requests|;
      && Enabled(OnSubmit(f), Created(n, todo))
      && Enabled(OnCreated(OnSubmit(f), n, todo), CreateSettled(n))
      && OnSettled(OnCreated(OnSubmit(f), n, todo), n) ==
           f.(title := "",
              requests := f.requests + [Request(NewTodo(Trim(f.title), false, f.userId), Settled)],
              errorCalls := f.errorCalls + [SetErrorMessage("")],
              added := f.added + [todo])
  {
    SubmitFromIdle(f);
  }

  /** A whole failed submission from an idle form: the submit, catch and
      finally handlers run in turn; the error shown is "Unable to add a
      todo", the typed title is kept, nothing reaches the add hook and the
      form is idle again. */
  lemma SubmitThenFailed(f: Form)
    requires Idle(f) && !IsBlank(f.title)
    ensures var n := |f.requests|;
      && Enabled(OnSubmit(f), CreateFailed(n))
      && Enabled(OnCreateFailed(OnSubmit(f), n), CreateSettled(n))
      && OnSettled(OnCreateFailed(OnSubmit(f), n), n) ==
           f.(requests := f.requests + [Request(NewTodo(Trim(f.title), false, f.userId), Settled)],
              errorCalls := f.errorCalls + [SetErrorMessage(""), SetError(AddTodoError)])
      && ErrorShown(OnSettled(OnCreateFailed(OnSubmit(f), n), n)) == Some(AddTodoError)
  {
    SubmitFromIdle(f);
    assert f.errorCalls + [SetErrorMessage("")] + [SetError(AddTodoError)]
        == f.errorCalls + [SetErrorMessage(""), SetError(AddTodoError)];
  }

  /** Without the input attached the finally callback is a no-op on screen,
      so after submit, catch and finally the placeholder is still showing. */
  lemma DetachedFailureKeepsPlaceholder(f: Form)
    requires !f.inputAttached && !IsBlank(f.title)
    ensures var n := |f.requests|;
      && Enabled(OnSubmit(f), CreateFailed(n))
      && Enabled(OnCreateFailed(OnSubmit(f), n), CreateSettled(n))
      && OnSettled(OnCreateFailed(OnSubmit(f), n), n).tempTodo == Some(Todo(0, Trim(f.title), false, f.userId))
  {
  }
}
