/** The todo record and the counts the controller derives from the list. */
module Todos {

  /** A todo as the server stores it; id 0 marks the unsaved placeholder. */
  datatype Todo = Todo(id: int, title: string, completed: bool, userId: int)

  /** The todos still to do, in list order. */
  function Uncompleted(todos: seq<Todo>): (r: seq<Todo>)
    ensures |r| <= |todos|
    ensures forall t :: t in r <==> t in todos && !t.completed
    ensures forall t :: multiset(r)[t] == if t.completed then 0 else multiset(todos)[t]
  {
    if todos == [] then []
    else
      assert todos == [todos[0]] + todos[1..];
      if todos[0].completed then Uncompleted(todos[1..])
      else [todos[0]] + Uncompleted(todos[1..])
  }

  /** The "items left" figure: how many todos are not completed. */
  function RemainingCount(todos: seq<Todo>): nat {
    |Uncompleted(todos)|
  }

  /** Whether some todo is completed, scanning from the front. */
  function AnyCompleted(todos: seq<Todo>): (r: bool)
    ensures r <==> exists i :: 0 <= i < |todos| && todos[i].completed
  {
    if todos == [] then false
    else if todos[0].completed then true
    else
      var r := AnyCompleted(todos[1..]);
      assert r ==> todos[1..][0].completed || exists i :: 1 <= i < |todos| && todos[i].completed;
      r
  }

  /** Whether every todo is completed; true of the empty list. */
  function AllCompleted(todos: seq<Todo>): (r: bool)
    ensures r <==> forall i :: 0 <= i < |todos| ==> todos[i].completed
  {
    if todos == [] then true
    else if !todos[0].completed then false
    else
      var r := AllCompleted(todos[1..]);
      assert !r ==> exists i :: 1 <= i < |todos| && !todos[i].completed;
      r
  }

  /** The completed flags of the list, one per todo. */
  function Flags(todos: seq<Todo>): (r: seq<bool>)
    ensures |r| == |todos|
    ensures forall i :: 0 <= i < |todos| ==> r[i] == todos[i].completed
  {
    seq(|todos|, i requires 0 <= i < |todos| => todos[i].completed)
  }

  /** How many todos are completed, counted as a multiplicity. */
  function CompletedCount(todos: seq<Todo>): nat {
    multiset(Flags(todos))[true]
  }

  /** The remaining count is the list length minus the completed ones. */
  lemma {:induction false} RemainingIsLengthMinusCompleted(todos: seq<Todo>)
    ensures RemainingCount(todos) == |todos| - CompletedCount(todos)
  {
    if todos != [] {
      RemainingIsLengthMinusCompleted(todos[1..]);
      assert Flags(todos) == [todos[0].completed] + Flags(todos[1..]);
    }
  }

  /** Everything is completed exactly when nothing remains. */
  lemma AllCompletedIffNoneRemaining(todos: seq<Todo>)
    ensures AllCompleted(todos) <==> RemainingCount(todos) == 0
  {
    var r := Uncompleted(todos);
    if RemainingCount(todos) != 0 {
      assert r[0] in r;
      var k :| 0 <= k < |todos| && todos[k] == r[0];
      assert !todos[k].completed;
    } else {
      forall i | 0 <= i < |todos| ensures todos[i].completed {
        assert todos[i] !in r;
      }
    }
  }

  /** Some todo is completed exactly when the completed count is positive. */
  lemma AnyCompletedIffCountPositive(todos: seq<Todo>)
    ensures AnyCompleted(todos) <==> CompletedCount(todos) > 0
  {
    var f := Flags(todos);
    if AnyCompleted(todos) {
      var i :| 0 <= i < |todos| && todos[i].completed;
      assert f[i] == true;
      assert true in multiset(f);
    } else {
      assert true !in f;
    }
  }

  /** The empty list is "all completed" but not "at least one completed";
      on a non-empty list the first implies the second. */
  lemma {:induction false} EmptyAndNonEmptyLists(todos: seq<Todo>)
    ensures todos == [] ==> AllCompleted(todos) && !AnyCompleted(todos) && RemainingCount(todos) == 0
    ensures todos != [] && AllCompleted(todos) ==> AnyCompleted(todos)
  {
    if todos != [] && AllCompleted(todos) {
      assert todos[0].completed;
    }
  }
}
