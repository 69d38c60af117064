/**
 * The to-do list of `src/components/Home.tsx`: adding, toggling, deleting and
 * editing to-dos, the completed/pending split, and the copy kept in local
 * storage under `hoze_todos`.
 */
module Home {
  import opened Wrappers
  import Seqs
  import Text

  datatype Priority = Low | Medium | High

  /** `TodoItem`. */
  datatype Todo = Todo(id: string, text: string, completed: bool, createdAt: string,
                       assignedTo: Option<string>, dueDate: Option<string>, priority: Priority)

  /**
   * `addTodo` on the list: a blank text adds nothing; otherwise a pending
   * medium-priority to-do with the trimmed text goes in front.
   */
  function Added(todos: seq<Todo>, text: string, id: string, createdAt: string): (r: seq<Todo>)
    ensures Text.AllSpace(text) ==> r == todos
    ensures !Text.AllSpace(text) ==>
      |r| == |todos| + 1 && r[1..] == todos
      && r[0].id == id && r[0].text == Text.Trim(text) && r[0].text != []
      && !r[0].completed && r[0].priority == Medium && r[0].createdAt == createdAt
      && r[0].assignedTo.None? && r[0].dueDate.None?
  {
    var trimmed := Text.Trim(text);
    if trimmed == [] then todos
    else [Todo(id, trimmed, false, createdAt, None, None, Medium)] + todos
  }

  /** `toggleTodo` on the list: every to-do with the id has `completed` flipped. */
  function Toggled(todos: seq<Todo>, id: string): (r: seq<Todo>)
    ensures |r| == |todos|
    ensures forall i :: 0 <= i < |todos| && todos[i].id == id ==> r[i] == todos[i].(completed := !todos[i].completed)
    ensures forall i :: 0 <= i < |todos| && todos[i].id != id ==> r[i] == todos[i]
  {
    seq(|todos|, i requires 0 <= i < |todos| =>
      if todos[i].id == id then todos[i].(completed := !todos[i].completed) else todos[i])
  }

  /** `deleteTodo` on the list: drops every to-do with the id. */
  function Deleted(todos: seq<Todo>, id: string): (r: seq<Todo>)
    ensures forall t :: t in r <==> t in todos && t.id != id
    ensures |r| <= |todos|
  {
    Seqs.KeepContents(todos, (t: Todo) => t.id != id);
    Seqs.Keep(todos, (t: Todo) => t.id != id)
  }

  /** Deleting works element by element, so the remaining to-dos keep their relative order. */
  lemma {:induction false} DeleteKeepsOrder(front: seq<Todo>, back: seq<Todo>, id: string)
    ensures Deleted(front + back, id) == Deleted(front, id) + Deleted(back, id)
  {
    Seqs.KeepAppend(front, back, (t: Todo) => t.id != id);
  }

  /**
   * `saveEdit` on the list: a blank text changes nothing; otherwise every
   * to-do with the id gets the trimmed text.
   */
  function Edited(todos: seq<Todo>, id: string, text: string): (r: seq<Todo>)
    ensures |r| == |todos|
    ensures Text.AllSpace(text) ==> r == todos
    ensures !Text.AllSpace(text) ==>
      (forall i :: 0 <= i < |todos| && todos[i].id == id ==> r[i] == todos[i].(text := Text.Trim(text)))
      && (forall i :: 0 <= i < |todos| && todos[i].id != id ==> r[i] == todos[i])
  {
    var trimmed := Text.Trim(text);
    if trimmed == [] then
      todos
    else
      seq(|todos|, i requires 0 <= i < |todos| =>
        if todos[i].id == id then todos[i].(text := trimmed) else todos[i])
  }

  predicate IsDone(t: Todo) {
    t.completed
  }

  predicate IsPending(t: Todo) {
    !IsDone(t)
  }

  /** `completedTodos`. */
  function Completed(todos: seq<Todo>): (r: seq<Todo>)
    ensures forall t :: t in r <==> t in todos && t.completed
  {
    Seqs.KeepContents(todos, IsDone);
    Seqs.Keep(todos, IsDone)
  }

  /** `pendingTodos`. */
  function Pending(todos: seq<Todo>): (r: seq<Todo>)
    ensures forall t :: t in r <==> t in todos && !t.completed
  {
    Seqs.KeepContents(todos, IsPending);
    Seqs.Keep(todos, IsPending)
  }

  /** Toggling the same id twice restores the list. */
  lemma ToggleTwice(todos: seq<Todo>, id: string)
    ensures Toggled(Toggled(todos, id), id) == todos
  {
    var once := Toggled(todos, id);
    var twice := Toggled(once, id);
    forall i | 0 <= i < |todos| ensures twice[i] == todos[i] {
      assert once[i].id == todos[i].id;
    }
  }

  /** The completed and the pending lists split the whole list: every to-do is counted exactly once. */
  lemma {:induction false} CompletedPendingPartition(todos: seq<Todo>)
    ensures |Completed(todos)| + |Pending(todos)| == |todos|
    ensures forall t :: t in todos ==> (t in Completed(todos) <==> t !in Pending(todos))
  {
    if todos != [] {
      CompletedPendingPartition(todos[1..]);
    }
  }

  /** A to-do just added is pending, and deleting it again gives back the list without that id. */
  lemma AddThenDelete(todos: seq<Todo>, text: string, id: string, createdAt: string)
    requires !Text.AllSpace(text)
    ensures Added(todos, text, id, createdAt)[0] in Pending(Added(todos, text, id, createdAt))
    ensures Deleted(Added(todos, text, id, createdAt), id) == Deleted(todos, id)
  {
    var added := Added(todos, text, id, createdAt);
    assert added == [added[0]] + todos;
    Seqs.KeepAppend([added[0]], todos, (t: Todo) => t.id != id);
    assert Seqs.Keep([added[0]], (t: Todo) => t.id != id) == [] by {
      assert [added[0]][1..] == [];
    }
  }

  /** Deleting an id no to-do carries leaves the list as it is. */
  lemma DeleteAbsent(todos: seq<Todo>, id: string)
    requires forall i :: 0 <= i < |todos| ==> todos[i].id != id
    ensures Deleted(todos, id) == todos
  {
    Seqs.KeepAll(todos, (t: Todo) => t.id != id);
  }

  /** The screen's state; `stored` is the list last written to local storage. */
  class TodoList {
    var todos: seq<Todo>
    var newTodo: string
    var showAddForm: bool
    var editingTodo: Option<string>
    var editText: string
    var stored: seq<Todo>

    /** The save effect keeps local storage equal to the list after every change. */
    predicate Synced()
      reads this
    {
      stored == todos
    }

    /**
     * Mounting: a stored list that parses is loaded; a missing or unparseable
     * one leaves the list empty. The save effect then writes the list back.
     */
    constructor Open(saved: Option<Option<seq<Todo>>>)
      ensures saved.Some? && saved.value.Some? ==> todos == saved.value.value
      ensures !(saved.Some? && saved.value.Some?) ==> todos == []
      ensures Synced()
      ensures newTodo == [] && !showAddForm && editingTodo.None? && editText == []
    {
      var loaded := Seqs.LoadList(saved);
      todos := loaded;
      stored := loaded;
      newTodo := [];
      showAddForm := false;
      editingTodo := None;
      editText := [];
    }

    /** The add button: shows the add form. */
    method OpenAddForm()
      requires Synced()
      modifies this
      ensures Synced()
      ensures showAddForm
      ensures todos == old(todos) && newTodo == old(newTodo)
      ensures editingTodo == old(editingTodo) && editText == old(editText)
    {
      showAddForm := true;
    }

    /** The cancel button and the Escape key: hide the add form and clear it. */
    method CancelAdd()
      requires Synced()
      modifies this
      ensures Synced()
      ensures !showAddForm && newTodo == []
      ensures todos == old(todos)
      ensures editingTodo == old(editingTodo) && editText == old(editText)
    {
      showAddForm := false;
      newTodo := [];
    }

    /** Typing in the add form. */
    method SetNewTodo(text: string)
      requires Synced()
      modifies this
      ensures Synced()
      ensures newTodo == text
      ensures todos == old(todos) && showAddForm == old(showAddForm)
      ensures editingTodo == old(editingTodo) && editText == old(editText)
    {
      newTodo := text;
    }

    /** `addTodo`: the id and the creation time are the clock's readings. */
    method AddTodo(id: string, createdAt: string)
      requires Synced()
      modifies this
      ensures Synced()
      ensures todos == Added(old(todos), old(newTodo), id, createdAt)
      ensures Text.AllSpace(old(newTodo)) ==> newTodo == old(newTodo) && showAddForm == old(showAddForm)
      ensures !Text.AllSpace(old(newTodo)) ==> newTodo == [] && !showAddForm
      ensures editingTodo == old(editingTodo) && editText == old(editText)
    {
      if !Text.AllSpace(newTodo) {
        todos := Added(todos, newTodo, id, createdAt);
        stored := todos;
        newTodo := [];
        showAddForm := false;
      }
    }

    /** `toggleTodo(id)`. */
    method ToggleTodo(id: string)
      requires Synced()
      modifies this
      ensures Synced()
      ensures todos == Toggled(old(todos), id)
      ensures newTodo == old(newTodo) && editingTodo == old(editingTodo) && editText == old(editText)
      ensures showAddForm == old(showAddForm)
    {
      todos := Toggled(todos, id);
      stored := todos;
    }

    /** `deleteTodo(id)`. */
    method DeleteTodo(id: string)
      requires Synced()
      modifies this
      ensures Synced()
      ensures todos == Deleted(old(todos), id)
      ensures newTodo == old(newTodo) && editingTodo == old(editingTodo) && editText == old(editText)
      ensures showAddForm == old(showAddForm)
    {
      todos := Deleted(todos, id);
      stored := todos;
    }

    /** `startEdit(todo)`. */
    method StartEdit(t: Todo)
      requires Synced()
      modifies this
      ensures Synced()
      ensures editingTodo == Some(t.id) && editText == t.text
      ensures todos == old(todos) && newTodo == old(newTodo) && showAddForm == old(showAddForm)
    {
      editingTodo := Some(t.id);
      editText := t.text;
    }

    /** Typing in the edit field. */
    method SetEditText(text: string)
      requires Synced()
      modifies this
      ensures Synced()
      ensures editText == text
      ensures todos == old(todos) && editingTodo == old(editingTodo)
      ensures newTodo == old(newTodo) && showAddForm == old(showAddForm)
    {
      editText := text;
    }

    /** `saveEdit(id)`: applies the edit when its text is not blank, and always leaves editing. */
    method SaveEdit(id: string)
      requires Synced()
      modifies this
      ensures Synced()
      ensures todos == Edited(old(todos), id, old(editText))
      ensures editingTodo.None? && editText == []
      ensures newTodo == old(newTodo) && showAddForm == old(showAddForm)
    {
      var edited := Edited(todos, id, editText);
      if !Text.AllSpace(editText) {
        todos := edited;
        stored := todos;
      } else {
        assert edited == todos;
      }
      editingTodo := None;
      editText := [];
    }

    /** `cancelEdit`. */
    method CancelEdit()
      requires Synced()
      modifies this
      ensures Synced()
      ensures editingTodo.None? && editText == []
      ensures todos == old(todos) && newTodo == old(newTodo) && showAddForm == old(showAddForm)
    {
      editingTodo := None;
      editText := [];
    }
  }
}
