/** The controller's form state as the component holds it: fields updated in
    place by its handlers, each handler proved to perform the matching
    transition of the Submission state machine and to keep its invariant. */
module Controller {
  import opened Wrappers
  import opened Todos
  import opened JsString
  import opened Submission

  class TodoApp {
    var title: string
    var tempTodo: Option<Todo>
    /** Whether the shared ref holds the input element. */
    const inputAttached: bool
    /** The input element's disabled property. */
    var inputDisabled: bool
    const userId: int
    var requests: seq<Request>
    var errorCalls: seq<ErrorCall>
    var added: seq<Todo>

    function Snapshot(): Form
      reads this
    {
      Form(title, tempTodo, inputAttached, inputDisabled, userId, requests, errorCalls, added)
    }

    ghost predicate Valid()
      reads this
    {
      Inv(Snapshot())
    }

    constructor (inputAttached: bool, userId: int)
      ensures Snapshot() == Init(inputAttached, userId) && Valid()
    {
      title := "";
      tempTodo := None;
      this.inputAttached := inputAttached;
      inputDisabled := false;
      this.userId := userId;
      requests := [];
      errorCalls := [];
      added := [];
      InitInv(inputAttached, userId);
    }

    /** The change handler of the input. */
    method HandleTitle(value: string)
      requires Valid() && InputUsable(Snapshot())
      modifies this
      ensures Snapshot() == Step(old(Snapshot()), TitleChanged(value)) && Valid()
    {
      ghost var before := Snapshot();
      title := value;
      StepKeepsInv(before, TitleChanged(value));
    }

    /** The submit handler. Returns the index of the create request it
        issued, if it issued one. */
    method HandleSubmit() returns (request: Option<nat>)
      requires Valid() && InputUsable(Snapshot())
      modifies this
      ensures Snapshot() == Step(old(Snapshot()), Submitted) && Valid()
      ensures request.Some? <==> !IsBlank(old(title))
      ensures request.Some? ==> request.value == old(|requests|) && requests[request.value].phase == Pending
    {
      ghost var before := Snapshot();
      errorCalls := errorCalls + [SetErrorMessage("")];
      var trimmed := Trim(title);
      if |trimmed| != 0 {
        if inputAttached {
          inputDisabled := true;
        }
        var newTodo := NewTodo(trimmed, false, userId);
        tempTodo := Some(Placeholder(newTodo));
        requests := requests + [Request(newTodo, Pending)];
        request := Some(|requests| - 1);
        assert !IsBlank(before.title);
      } else {
        errorCalls := errorCalls + [SetError(EmptyTitleError)];
        request := None;
        assert IsBlank(before.title);
      }
      assert Snapshot() == OnSubmit(before);
      StepKeepsInv(before, Submitted);
    }

    /** The then callback of request `i`, with the server's record. */
    method HandleCreated(i: nat, todo: Todo)
      requires Valid() && i < |requests| && requests[i].phase == Pending
      modifies this
      ensures Snapshot() == Step(old(Snapshot()), Created(i, todo)) && Valid()
    {
      ghost var before := Snapshot();
      added := added + [todo];
      tempTodo := None;
      title := "";
      requests := requests[i := requests[i].(phase := Fulfilled)];
      StepKeepsInv(before, Created(i, todo));
    }

    /** The catch callback of request `i`. */
    method HandleCreateFailed(i: nat)
      requires Valid() && i < |requests| && requests[i].phase == Pending
      modifies this
      ensures Snapshot() == Step(old(Snapshot()), CreateFailed(i)) && Valid()
    {
      ghost var before := Snapshot();
      errorCalls := errorCalls + [SetError(AddTodoError)];
      requests := requests[i := requests[i].(phase := Rejected)];
      StepKeepsInv(before, CreateFailed(i));
    }

    /** The finally callback of request `i`. */
    method HandleSettled(i: nat)
      requires Valid() && i < |requests| && requests[i].phase in {Fulfilled, Rejected}
      modifies this
      ensures Snapshot() == Step(old(Snapshot()), CreateSettled(i)) && Valid()
      ensures inputAttached ==> !inputDisabled && tempTodo == None
    {
      ghost var before := Snapshot();
      requests := requests[i := requests[i].(phase := Settled)];
      if inputAttached {
        inputDisabled := false;
        tempTodo := None;
      }
      StepKeepsInv(before, CreateSettled(i));
    }
  }

  /** A caller driving one successful submission through the handlers. */
  method SubmitOnce(app: TodoApp, todo: Todo) returns (request: Option<nat>)
    requires app.Valid() && app.inputAttached && !app.inputDisabled && !IsBlank(app.title)
    modifies app
    ensures app.Valid() && request.Some?
    ensures app.title == "" && app.tempTodo == None && !app.inputDisabled
    ensures app.added == old(app.added) + [todo]
  {
    ghost var f := app.Snapshot();
    ghost var n := |f.requests|;
    SubmitThenCreated(f, todo);
    request := app.HandleSubmit();
    ghost var f1 := app.Snapshot();
    assert f1 == OnSubmit(f) && request == Some(n);
    app.HandleCreated(request.value, todo);
    ghost var f2 := app.Snapshot();
    assert f2 == OnCreated(f1, n, todo);
    app.HandleSettled(request.value);
    assert app.Snapshot() == OnSettled(f2, n);
  }
}
