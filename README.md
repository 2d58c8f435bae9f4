# Todo controller model

A Dafny model of the `TodoApp` component of a React todo-list client. The component does two things that carry logic:

- It derives three values from the shared list of todos: the number of todos left, whether at least one is completed, and whether all are completed. The view uses them to decide whether the toggle-all button and the footer are shown and whether "Clear completed" is enabled.
- It runs the new-todo form. On submit it trims the typed title. A blank title raises the validation error "Title should not be empty". Any other title clears the error, disables the input, shows a placeholder todo with id 0 and sends a create request to the API. The request's then, catch and finally callbacks then update the form.

The model has six modules:

- `Wrappers` (`wrappers.dfy`) holds the `Option` type used for the placeholder and the error shown.
- `JsString` (`js_string.dfy`) models `String.prototype.trim`. The whitespace set is ECMAScript's WhiteSpace and LineTerminator code points. The lemmas show that trim keeps a contiguous piece of its input and drops only whitespace, that a title is blank exactly when it is all whitespace, and that trim leaves an already trimmed string unchanged.
- `Todos` (`todos.dfy`) holds the `Todo` record and the derived counts. `filter`, `some` and `every` become recursive functions, and each one's contract ties it to an independent definition (membership, or a quantifier over indices).
- `TodoView` (`todo_view.dfy`) holds the predicates that gate the toggle-all button, the footer and "Clear completed".
- `Submission` (`submission.dfy`) is the form as a state machine over a value `Form`. The asynchronous request is split into the events its promise chain delivers: `Submitted`, `Created(i, todo)` (then), `CreateFailed(i)` (catch) and `CreateSettled(i)` (finally). Each request keeps its own `Phase`, so a callback can run only in the order the promise runtime runs it.
  - Calls into collaborators whose bodies are outside this model are recorded as calls, without semantics. These are the context's `setErrorMessage`/`setError` hooks, its `addTodoToState` hook and the API's create request.
  - "The error shown" is the argument of the latest error-hook call (`ErrorShown`).
  - The invariant `Inv` holds in every reachable state: every request carries a trimmed, non-empty title with `completed == false` and the current user; a shown placeholder is the latest request's; and, when the input is attached to the ref, only the latest request can be unsettled, the input is disabled exactly while it is, and a placeholder shows only then.
- `Controller` (`todo_app.dfy`) holds the class `TodoApp`. Its fields are the component's state, and its handlers update them in place. Each handler is proved to perform exactly the matching `Submission` transition and to keep `Inv`.

The form depends on three inputs the model takes as parameters:

- whether the shared ref holds the input element (`inputAttached`);
- the API module's `USER_ID` (`userId`);
- the server's returned record (the `todo` of `Created`).

## Model

| member | source | states |
|---|---|---|
| Todos.Uncompleted | src/components/TodoApp.tsx:23-25 | the filtered list holds each todo that is not completed as many times as the list does, and no completed todo; so its length is the number of todos not completed (order is not stated) |
| Todos.RemainingIsLengthMinusCompleted | src/components/TodoApp.tsx:23-25 | the remaining count equals the list length minus the number of completed todos, for any list |
| Todos.AnyCompleted | src/components/TodoApp.tsx:26-28 | "at least one completed" holds exactly when some index holds a completed todo |
| Todos.AllCompleted | src/components/TodoApp.tsx:30-32 | "all completed" holds exactly when every index holds a completed todo (so it is vacuously true on the empty list) |
| Todos.AllCompletedIffNoneRemaining | src/components/TodoApp.tsx:23-32 | all todos are completed exactly when the remaining count is 0 |
| Todos.AnyCompletedIffCountPositive | src/components/TodoApp.tsx:23-28 | some todo is completed exactly when the completed count is positive |
| Todos.EmptyAndNonEmptyLists | src/components/TodoApp.tsx:23-32 | on the empty list "all completed" is true, "at least one completed" is false and nothing remains; on a non-empty list "all completed" implies "at least one completed" |
| TodoView.ViewGates | src/components/TodoApp.tsx:84-126 | toggle-all and footer are shown exactly when the list is non-empty; "Clear completed" is disabled exactly when no todo is completed, which is exactly when the items-left count equals the list length |
| TodoView.AllDoneView | src/components/TodoApp.tsx:84-129 | for a non-empty, fully completed list, toggle-all is shown and active, the footer shows 0 items left and "Clear completed" is enabled |
| JsString.Trim | src/components/TodoApp.tsx:42 | the trimmed string has no whitespace at either end |
| JsString.TrimStartSpec | src/components/TodoApp.tsx:42 | removing leading whitespace keeps a suffix that does not start with whitespace, and everything dropped is whitespace |
| JsString.TrimEndSpec | src/components/TodoApp.tsx:42 | removing trailing whitespace keeps a prefix that does not end with whitespace, and everything dropped is whitespace |
| JsString.TrimIsInfix | src/components/TodoApp.tsx:42 | trim returns a contiguous slice `s[i..j]` of its input with only whitespace before `i` and after `j` |
| JsString.TrimEmptyIff | src/components/TodoApp.tsx:42 | a title trims to the empty string exactly when every character is whitespace |
| JsString.TrimOfTrimmed | src/components/TodoApp.tsx:48 | trim leaves a string with no whitespace at either end unchanged |
| Submission.OnTitleChange | src/components/TodoApp.tsx:34-36 | the change handler sets the title to the typed value and changes nothing else |
| Submission.SubmitBlank | src/components/TodoApp.tsx:40-78 | submitting a blank title calls `setErrorMessage("")` then `setError("Title should not be empty")` and changes nothing else: the error shown is exactly that message, no request is issued, and title, placeholder and disabled flag are unchanged |
| Submission.SubmitNonBlank | src/components/TodoApp.tsx:40-58 | submitting a non-blank title clears the error and disables an attached input. The placeholder is `{id 0, trimmed title, completed false, userId}`. Exactly one request is issued, its payload has the same title, completed false and the same user, and the placeholder is that payload with id 0. The typed title is kept |
| Submission.CreatedEffects | src/components/TodoApp.tsx:59-65 | on success the add hook receives the server's record unchanged, the placeholder is cleared and the typed title becomes empty |
| Submission.FailedEffects | src/components/TodoApp.tsx:66-68 | on failure the error shown is exactly "Unable to add a todo", and the typed title, placeholder and disabled flag are unchanged |
| Submission.SettledEffects | src/components/TodoApp.tsx:69-75 | finally re-enables the input and clears the placeholder when the ref holds the input, and changes neither otherwise |
| Submission.InitInv | src/components/TodoApp.tsx:14-15 | the initial form (empty title, no placeholder, enabled input) satisfies the invariant |
| Submission.SubmitKeepsInv | src/components/TodoApp.tsx:38-58 | submitting from a usable input keeps the invariant |
| Submission.CreatedKeepsInv | src/components/TodoApp.tsx:59-65 | the then callback keeps the invariant |
| Submission.FailedKeepsInv | src/components/TodoApp.tsx:66-68 | the catch callback keeps the invariant |
| Submission.SettledKeepsInv | src/components/TodoApp.tsx:69-75 | the finally callback keeps the invariant |
| Submission.StepKeepsInv | src/components/TodoApp.tsx:34-79 | every event the component can receive keeps the invariant |
| Submission.RunKeepsInv | src/components/TodoApp.tsx:34-79 | every state reached by any possible schedule of events satisfies the invariant |
| Submission.SettledFormIsIdle | src/components/TodoApp.tsx:69-75 | with the ref holding the input, once every request has settled the input is enabled and no placeholder shows, after any schedule |
| Submission.RequestsCarryCleanTitles | src/components/TodoApp.tsx:42-51 | every create request ever issued has a non-blank title, completed false and the current user |
| Submission.SingleFlight | src/components/TodoApp.tsx:43-45 | with the ref holding the input, any unsettled request is the latest one and the input is disabled while it runs |
| Submission.UsableFormIsIdle | src/components/TodoApp.tsx:69-75 | with the ref holding the input, a reachable form whose input is enabled shows no placeholder |
| Submission.SubmitFromIdle | src/components/TodoApp.tsx:40-57 | from an idle form, a non-blank submit yields the disabled input, the placeholder, one pending request and a cleared error, and changes nothing else |
| Submission.SubmitThenCreated | src/components/TodoApp.tsx:38-75 | submit, then and finally run in turn from an idle form: the add hook receives the server record, the title is reset, the request is settled and the form is idle again |
| Submission.SubmitThenFailed | src/components/TodoApp.tsx:38-75 | submit, catch and finally run in turn from an idle form: the error shown is "Unable to add a todo", the title is kept, nothing reaches the add hook and the form is idle again |
| Submission.DetachedFailureKeepsPlaceholder | src/components/TodoApp.tsx:69-75 | when the ref does not hold the input, a failed submission leaves its placeholder showing after finally |
| Controller.TodoApp.constructor | src/components/TodoApp.tsx:14-15 | the component starts with an empty title, no placeholder, an enabled input and no calls made |
| Controller.TodoApp.HandleTitle | src/components/TodoApp.tsx:34-36 | the change handler performs the title-change transition and keeps the invariant |
| Controller.TodoApp.HandleSubmit | src/components/TodoApp.tsx:38-79 | the submit handler performs the submit transition and keeps the invariant; it issues a request exactly when the trimmed title is non-empty, and that request is the new pending one |
| Controller.TodoApp.HandleCreated | src/components/TodoApp.tsx:59-65 | the then callback performs the success transition and keeps the invariant |
| Controller.TodoApp.HandleCreateFailed | src/components/TodoApp.tsx:66-68 | the catch callback performs the failure transition and keeps the invariant |
| Controller.TodoApp.HandleSettled | src/components/TodoApp.tsx:69-75 | the finally callback performs the settle transition and keeps the invariant; with the ref holding the input it leaves the input enabled and no placeholder |
| Controller.SubmitOnce | src/components/TodoApp.tsx:58-75 | a caller driving submit, then and finally through the handlers ends with an empty title, no placeholder, an enabled input and the server record handed to the add hook |

Three behaviours of the code are worth stating plainly:

- A failed create does not remove the placeholder itself. Finally removes it and re-enables the input, and only when the ref holds the input (src/components/TodoApp.tsx:69-75); see `Submission.DetachedFailureKeepsPlaceholder`. The input is always rendered with that ref, so in practice the ref holds it.
- A successful create hands the server's record to `addTodoToState`, whose body is not part of this model, and clears the placeholder. The model records the call and does not assume that the record is appended to the list.
- Every submit clears the error message first, including a blank one, before the validation error is raised (src/components/TodoApp.tsx:40). The model keeps both calls.

## Left out

- `toggleAll`, `handleDeleteCompleted`, `addTodoToState`, `setError` and `setErrorMessage` are defined in `TodosContext`, which is not part of this model. The hooks the form calls are recorded only as calls with their arguments. The toggle-all and delete-completed operations, and their properties, are not modelled.
- Rendering is not modelled: the JSX, `classNames`, and the `TodoList`, `TodoItem` and `TodosFilter` components. Only the visibility and enabled conditions of the toggle-all button, the footer and "Clear completed" are modelled.
- The `useEffect` that focuses the input on mount, the `focus()` call in finally and `event.preventDefault()` in the submit handler are left out: they are UI side effects with no data behaviour.
- `useMemo` caching is left out: the derived counts are modelled as plain functions of the list.
- React state setters are modelled as immediate assignments. Render batching and scheduling are not modelled.
- The HTTP client behind `addTodo` is network I/O. Its outcome is an event: success with an arbitrary server record, or failure. The value of `USER_ID` is a parameter.
- The model does not cover a then callback that throws, which would route into catch. It assumes `addTodoToState` returns normally.
- Calls to different collaborators are kept as separate traces: error-hook calls, create requests and add-hook calls. Their relative order across traces is not recorded.
- Whether the ref holds the input element is fixed for the component's lifetime (`inputAttached`).
- The model never delivers a change or submit event while the attached input is disabled, because a browser does not fire them from a disabled input. Single-flight submission rests on this.
- JavaScript strings are UTF-16 code units; the model's strings are sequences of Unicode scalar values. Every code point `trim` strips is in the Basic Multilingual Plane, so the blank/non-blank decision is the same. Lone surrogates are not represented.
- ErrorShown: assumes the error on screen is the argument of the latest call to either `setErrorMessage` or `setError`. Both hooks live in `TodosContext`, which is not part of this model, so any timer or other logic inside them (such as clearing the error after a delay) is not captured.
