/** The checklists page (client/src/pages/checklists.tsx): toggling, adding
    and deleting the tasks of a checklist, creating a checklist, and the
    progress shown on each card. Each task action looks the checklist up with
    `find` (the first one with that id) and then sends a tasks-only patch to
    `updateChecklist`, which applies it to every checklist with that id. */
module Checklists {
  import opened Collections
  import opened Records
  import opened Store

  /** `t => ({ ...t, completed: v })`. */
  function SetCompleted(v: bool): Task -> Task
  {
    (t: Task) => t.(completed := v)
  }

  /** The task list `toggleTask` computes: every task with that id gets
      `completed: !current`, where `current` is the value the checkbox showed. */
  function ToggledTasks(ts: seq<Task>, taskId: string, current: bool): (r: seq<Task>)
    ensures |r| == |ts|
    ensures forall i :: 0 <= i < |ts| && ts[i].id == taskId ==> r[i] == ts[i].(completed := !current)
    ensures forall i :: 0 <= i < |ts| && ts[i].id != taskId ==> r[i] == ts[i]
  {
    UpdateWhere(ts, TaskId, taskId, SetCompleted(!current))
  }

  /** Clicking a checkbox twice, each time with the value it then showed,
      restores the list. */
  lemma ToggleTwiceRestores(ts: seq<Task>, taskId: string, current: bool)
    requires forall i :: 0 <= i < |ts| && ts[i].id == taskId ==> ts[i].completed == current
    ensures ToggledTasks(ToggledTasks(ts, taskId, current), taskId, !current) == ts
  {
    var once := ToggledTasks(ts, taskId, current);
    var twice := ToggledTasks(once, taskId, !current);
    assert forall i :: 0 <= i < |ts| ==> twice[i] == ts[i];
  }

  /** `[...tasks, { id, text, completed: false }]`. */
  function AppendedTask(ts: seq<Task>, newTaskId: string, text: string): (r: seq<Task>)
    ensures |r| == |ts| + 1 && r[..|ts|] == ts
    ensures r[|ts|] == Task(newTaskId, text, false)
  {
    ts + [Task(newTaskId, text, false)]
  }

  /** A task added under a fresh id and then deleted leaves the list as it was. */
  lemma AddThenDeleteTask(ts: seq<Task>, newTaskId: string, text: string)
    requires !HasKey(ts, TaskId, newTaskId)
    ensures RemoveKey(AppendedTask(ts, newTaskId, text), TaskId, newTaskId) == ts
  {
    AppendThenRemove(ts, Task(newTaskId, text, false), TaskId);
  }

  /** `{ tasks: ts }`. */
  function TasksPatch(ts: seq<Task>): ChecklistPatch
  {
    EmptyChecklistPatch.(tasks := Some(ts))
  }

  /** What a task action does to the checklists: nothing when no checklist has
      the id; otherwise every checklist with that id receives the task list
      computed from the first one. */
  function AfterTaskAction(cs: seq<Checklist>, checklistId: string, newTasks: seq<Task> -> seq<Task>): (r: seq<Checklist>)
    ensures !HasKey(cs, ChecklistId, checklistId) ==> r == cs
    ensures |r| == |cs|
    ensures forall i :: 0 <= i < |cs| && cs[i].id != checklistId ==> r[i] == cs[i]
    ensures FindFirst(cs, ChecklistId, checklistId).Some? ==>
              forall i :: 0 <= i < |cs| && cs[i].id == checklistId ==>
                r[i] == cs[i].(tasks := newTasks(FindFirst(cs, ChecklistId, checklistId).value.tasks))
    ensures KeysUnique(cs, ChecklistId) ==>
              forall i :: 0 <= i < |cs| && cs[i].id == checklistId ==> r[i] == cs[i].(tasks := newTasks(cs[i].tasks))
  {
    match FindFirst(cs, ChecklistId, checklistId)
    case None => cs
    case Some(c) =>
      var r := UpdatedChecklists(cs, checklistId, TasksPatch(newTasks(c.tasks)));
      assert forall i :: 0 <= i < |cs| && cs[i].id == checklistId ==> r[i] == cs[i].(tasks := newTasks(c.tasks)) by {
        forall i | 0 <= i < |cs| && cs[i].id == checklistId
          ensures r[i] == cs[i].(tasks := newTasks(c.tasks))
        {
          MergeChecklistLaws(cs[i], EmptyChecklistPatch, newTasks(c.tasks));
        }
      }
      assert KeysUnique(cs, ChecklistId) ==>
               forall i :: 0 <= i < |cs| && cs[i].id == checklistId ==> r[i] == cs[i].(tasks := newTasks(cs[i].tasks)) by {
        if KeysUnique(cs, ChecklistId) {
          forall i | 0 <= i < |cs| && cs[i].id == checklistId
            ensures r[i] == cs[i].(tasks := newTasks(cs[i].tasks))
          {
            FindFirstUnique(cs, ChecklistId, i);
            MergeChecklistLaws(cs[i], EmptyChecklistPatch, newTasks(c.tasks));
          }
        }
      }
      r
  }

  function Toggling(taskId: string, current: bool): seq<Task> -> seq<Task>
  {
    ts => ToggledTasks(ts, taskId, current)
  }

  function Appending(newTaskId: string, text: string): seq<Task> -> seq<Task>
  {
    ts => AppendedTask(ts, newTaskId, text)
  }

  function Removing(taskId: string): seq<Task> -> seq<Task>
  {
    ts => RemoveKey(ts, TaskId, taskId)
  }

  /** `list.tasks.filter(t => t.completed).length`. */
  function CompletedCount(ts: seq<Task>): (n: nat)
    ensures n <= |ts|
    ensures n == 0 <==> forall t :: t in ts ==> !t.completed
    ensures n == |ts| <==> forall t :: t in ts ==> t.completed
    ensures ts == [] ==> n == 0
    ensures ts != [] ==> n == (if ts[0].completed then 1 else 0) + CompletedCount(ts[1..])
  {
    var done := Keep(ts, IsCompleted);
    assert |done| == |ts| <==> forall t :: t in ts ==> t.completed by {
      KeepFull(ts, IsCompleted);
    }
    assert |done| != 0 ==> done[0] in done;
    |done|
  }

  predicate IsCompleted(t: Task) { t.completed }

  /** The percentage `c / n * 100` of a count `c` out of `n > 0`. */
  lemma PercentBounds(c: nat, n: nat)
    requires 0 < n && c <= n
    ensures 0.0 <= (c as real / n as real) * 100.0 <= 100.0
    ensures (c as real / n as real) * 100.0 == 100.0 <==> c == n
    ensures (c as real / n as real) * 100.0 == 0.0 <==> c == 0
  {
    var x := c as real;
    var y := n as real;
    var q := x / y;
    var inv := 1.0 / y;
    assert q == x * inv && 1.0 - q == (y - x) * inv;
    NonNegativeProduct(x, inv);
    NonNegativeProduct(y - x, inv);
    assert q * y == x;
    if c == n {
      assert q == 1.0;
    }
    if q * 100.0 == 100.0 {
      assert q == 1.0;
      assert x == y;
    }
  }

  lemma NonNegativeProduct(a: real, b: real)
    requires 0.0 <= a && 0.0 < b
    ensures 0.0 <= a * b
  {
  }

  /** The card's progress bar, `completedCount / totalCount * 100` or 0 for an
      empty list, in exact arithmetic. */
  function Progress(ts: seq<Task>): (p: real)
    ensures 0.0 <= p <= 100.0
    ensures p == 100.0 <==> ts != [] && forall t :: t in ts ==> t.completed
    ensures p == 0.0 <==> forall t :: t in ts ==> !t.completed
  {
    if |ts| == 0 then 0.0
    else
      PercentBounds(CompletedCount(ts), |ts|);
      (CompletedCount(ts) as real / |ts| as real) * 100.0
  }

  /** The state of the page: the "New List" dialog and its two fields. */
  class ChecklistsPage {
    var newChecklistOpen: bool
    var newTitle: string
    var newDesc: string

    constructor ()
      ensures !newChecklistOpen && newTitle == "" && newDesc == ""
    {
      newChecklistOpen := false;
      newTitle := "";
      newDesc := "";
    }

    /** `toggleTask`. */
    method ToggleTask(store: AppStore, checklistId: string, taskId: string, current: bool)
      modifies store
      ensures store.checklists == AfterTaskAction(old(store.checklists), checklistId, Toggling(taskId, current))
      ensures store.user == old(store.user) && store.devices == old(store.devices)
      ensures store.notes == old(store.notes) && store.scripts == old(store.scripts)
    {
      var found := FindFirst(store.checklists, ChecklistId, checklistId);
      if found.None? {
        return;
      }
      store.UpdateChecklist(checklistId, TasksPatch(ToggledTasks(found.value.tasks, taskId, current)));
    }

    /** `addTask`. `text` is what `prompt` returned, `None` for a cancelled
        prompt; a cancelled or empty answer adds nothing. */
    method AddTask(store: AppStore, checklistId: string, text: Option<string>, newTaskId: string)
      modifies store
      ensures text == None || text == Some("") ==> store.checklists == old(store.checklists)
      ensures text.Some? && text.value != "" ==>
                store.checklists == AfterTaskAction(old(store.checklists), checklistId, Appending(newTaskId, text.value))
      ensures store.user == old(store.user) && store.devices == old(store.devices)
      ensures store.notes == old(store.notes) && store.scripts == old(store.scripts)
    {
      if text.None? || text.value == "" {
        return;
      }
      var found := FindFirst(store.checklists, ChecklistId, checklistId);
      if found.None? {
        return;
      }
      store.UpdateChecklist(checklistId, TasksPatch(AppendedTask(found.value.tasks, newTaskId, text.value)));
    }

    /** `deleteTask`. */
    method DeleteTask(store: AppStore, checklistId: string, taskId: string)
      modifies store
      ensures store.checklists == AfterTaskAction(old(store.checklists), checklistId, Removing(taskId))
      ensures store.user == old(store.user) && store.devices == old(store.devices)
      ensures store.notes == old(store.notes) && store.scripts == old(store.scripts)
    {
      var found := FindFirst(store.checklists, ChecklistId, checklistId);
      if found.None? {
        return;
      }
      store.UpdateChecklist(checklistId, TasksPatch(RemoveKey(found.value.tasks, TaskId, taskId)));
    }

    /** `createChecklist`: add an empty "General" checklist with the dialog's
        title and description, then clear and close the dialog. */
    method CreateChecklist(store: AppStore, newId: string)
      modifies this, store
      ensures store.checklists == old(store.checklists) + [Checklist(newId, old(newTitle), old(newDesc), [], "General")]
      ensures store.user == old(store.user) && store.devices == old(store.devices)
      ensures store.notes == old(store.notes) && store.scripts == old(store.scripts)
      ensures newTitle == "" && newDesc == "" && !newChecklistOpen
    {
      store.AddChecklist(Checklist("", newTitle, newDesc, [], "General"), newId);
      newTitle := "";
      newDesc := "";
      newChecklistOpen := false;
    }
  }
}
