/**
 * The client's todo list (client/src/context/TodoContext.tsx): the three
 * updates `addTodo`, `toggleTodo` and `deleteTodo`, as functions from the list
 * before (`prev`) to the list after. The clock reading `Date.now()` that names
 * a new todo is a parameter.
 */
module TodoContext {
  import opened Js

  datatype Todo = Todo(id: string, title: string, completed: bool, category: string, tags: Option<seq<string>>)

  /** `category || "other"` */
  function CategoryOrOther(category: string): string {
    if category != "" then category else "other"
  }

  /** `addTodo(title, category)` at time `now` (milliseconds since the epoch). */
  function AddTodo(todos: seq<Todo>, now: nat, title: string, category: string): (r: seq<Todo>)
    ensures |r| == |todos| + 1 && r[..|todos|] == todos
    ensures var t := r[|todos|];
            t.id == NatToString(now) && t.title == title && !t.completed &&
            t.category == (if category == "" then "other" else category) && t.tags.None?
  {
    todos + [Todo(NatToString(now), title, false, CategoryOrOther(category), None)]
  }

  /** The todo as `toggleTodo(id)` leaves it. */
  function Flip(t: Todo, id: string): Todo {
    if t.id == id then t.(completed := !t.completed) else t
  }

  /** `toggleTodo(id)`: `prev.map(...)`. */
  function ToggleTodo(todos: seq<Todo>, id: string): (r: seq<Todo>)
    ensures |r| == |todos|
    ensures forall k :: 0 <= k < |todos| ==>
              r[k].id == todos[k].id && r[k].title == todos[k].title && r[k].category == todos[k].category &&
              r[k].tags == todos[k].tags && r[k].completed == (todos[k].completed != (todos[k].id == id))
  {
    seq(|todos|, k requires 0 <= k < |todos| => Flip(todos[k], id))
  }

  /** `deleteTodo(id)`: `prev.filter(todo => todo.id !== id)`. */
  function DeleteTodo(todos: seq<Todo>, id: string): (r: seq<Todo>)
    ensures |r| <= |todos|
    ensures forall k :: 0 <= k < |r| ==> r[k].id != id
    ensures forall t :: t in r <==> t in todos && t.id != id
  {
    if todos == [] then []
    else (if todos[0].id != id then [todos[0]] else []) + DeleteTodo(todos[1..], id)
  }

  predicate HasId(todos: seq<Todo>, id: string) {
    exists k :: 0 <= k < |todos| && todos[k].id == id
  }

  /** Toggling the same id twice gives back the list. */
  lemma ToggleTwice(todos: seq<Todo>, id: string)
    ensures ToggleTodo(ToggleTodo(todos, id), id) == todos
  {
    var r := ToggleTodo(ToggleTodo(todos, id), id);
    assert forall k :: 0 <= k < |todos| ==> r[k] == todos[k];
  }

  /** Toggling an id no todo has changes nothing. */
  lemma ToggleAbsent(todos: seq<Todo>, id: string)
    requires !HasId(todos, id)
    ensures ToggleTodo(todos, id) == todos
  {
    var r := ToggleTodo(todos, id);
    assert forall k :: 0 <= k < |todos| ==> r[k] == todos[k];
  }

  /** Deleting distributes over concatenation, so the kept todos keep their order. */
  lemma {:induction false} DeleteAppend(a: seq<Todo>, b: seq<Todo>, id: string)
    ensures DeleteTodo(a + b, id) == DeleteTodo(a, id) + DeleteTodo(b, id)
  {
    if a == [] {
      assert a + b == b;
    } else {
      assert (a + b)[1..] == a[1..] + b;
      DeleteAppend(a[1..], b, id);
    }
  }

  /** Deleting an id no todo has changes nothing. */
  lemma {:induction false} DeleteAbsent(todos: seq<Todo>, id: string)
    requires !HasId(todos, id)
    ensures DeleteTodo(todos, id) == todos
  {
    if todos != [] {
      assert !HasId(todos[1..], id) by {
        forall k | 0 <= k < |todos[1..]|
          ensures todos[1..][k].id != id
        {
          assert todos[1..][k] == todos[k + 1];
        }
      }
      DeleteAbsent(todos[1..], id);
      assert [todos[0]] + todos[1..] == todos;
    }
  }

  /** Deleting removes exactly the todos with that id: a todo of another id survives, one of that id does not. */
  lemma DeleteKeepsOthers(todos: seq<Todo>, id: string, k: nat)
    requires k < |todos|
    ensures todos[k].id != id ==> todos[k] in DeleteTodo(todos, id)
    ensures todos[k].id == id ==> todos[k] !in DeleteTodo(todos, id)
  {
  }

  /** Adding and then deleting the new todo's id leaves the list without that id: the other todos, in order. */
  lemma AddThenDelete(todos: seq<Todo>, now: nat, title: string, category: string)
    ensures DeleteTodo(AddTodo(todos, now, title, category), NatToString(now)) == DeleteTodo(todos, NatToString(now))
  {
    var t := Todo(NatToString(now), title, false, CategoryOrOther(category), None);
    DeleteAppend(todos, [t], NatToString(now));
    assert DeleteTodo([t], NatToString(now)) == [];
  }
}
