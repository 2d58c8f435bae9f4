/** What the controller's view shows or enables, as functions of the list. */
module TodoView {
  import opened Todos

  /** The toggle-all button is rendered. */
  predicate ToggleAllShown(todos: seq<Todo>) {
    |todos| > 0
  }

  /** The toggle-all button carries its "active" class. */
  predicate ToggleAllActive(todos: seq<Todo>) {
    AllCompleted(todos)
  }

  /** The footer (counter, filter, "Clear completed") is rendered. */
  predicate FooterShown(todos: seq<Todo>) {
    |todos| > 0
  }

  /** The number printed before "items left". */
  function ItemsLeft(todos: seq<Todo>): nat {
    RemainingCount(todos)
  }

  /** "Clear completed" is disabled. */
  predicate ClearCompletedDisabled(todos: seq<Todo>) {
    !AnyCompleted(todos)
  }

  /** The list controls appear exactly when the list is non-empty;
      "Clear completed" is disabled exactly when no todo is completed, that is
      when every todo is still to do. */
  lemma ViewGates(todos: seq<Todo>)
    ensures ToggleAllShown(todos) <==> todos != []
    ensures FooterShown(todos) <==> todos != []
    ensures ClearCompletedDisabled(todos) <==> forall t :: t in todos ==> !t.completed
    ensures ClearCompletedDisabled(todos) <==> ItemsLeft(todos) == |todos|
  {
    RemainingIsLengthMinusCompleted(todos);
    AnyCompletedIffCountPositive(todos);
    if !ClearCompletedDisabled(todos) {
      var i :| 0 <= i < |todos| && todos[i].completed;
      assert todos[i] in todos;
    }
  }

  /** With a non-empty, fully completed list the toggle-all button is shown
      active, nothing is left and "Clear completed" is enabled. */
  lemma AllDoneView(todos: seq<Todo>)
    requires todos != [] && AllCompleted(todos)
    ensures ToggleAllShown(todos) && ToggleAllActive(todos)
    ensures FooterShown(todos) && ItemsLeft(todos) == 0 && !ClearCompletedDisabled(todos)
  {
    AllCompletedIffNoneRemaining(todos);
    EmptyAndNonEmptyLists(todos);
  }
}
