/** The task list page: a client-held list of learning tasks with a creation form. */
module Tasks {
  import opened Wrappers

  /** A learning task: optional id, title, minutes spent and a `YYYY-MM-DD` date. */
  datatype Task = Task(id: Option<int>, title: string, learningTime: int, date: string)

  /** The blank creation form. */
  const EmptyForm: Task := Task(None, "", 0, "")

  /** `t.id || 0`: a missing id counts as 0. */
  function IdOrZero(t: Task): int
  {
    t.id.GetOr(0)
  }

  /** `Math.max(...tasks.map(t => t.id || 0))` over a non-empty list: an id of the list that no other id exceeds. */
  function MaxId(tasks: seq<Task>): (m: int)
    requires |tasks| > 0
    ensures forall i :: 0 <= i < |tasks| ==> IdOrZero(tasks[i]) <= m
    ensures exists i :: 0 <= i < |tasks| && IdOrZero(tasks[i]) == m
  {
    if |tasks| == 1 then
      IdOrZero(tasks[0])
    else
      var rest := MaxId(tasks[1..]);
      assert forall i :: 1 <= i < |tasks| ==> tasks[i] == tasks[1..][i - 1];
      if IdOrZero(tasks[0]) >= rest then IdOrZero(tasks[0]) else rest
  }

  /** The id `createTask` assigns: one more than the largest existing id, or 1 for an empty list. */
  function NextId(tasks: seq<Task>): (id: int)
    ensures forall i :: 0 <= i < |tasks| ==> IdOrZero(tasks[i]) < id
    ensures tasks == [] ==> id == 1
    ensures tasks != [] ==> exists i :: 0 <= i < |tasks| && IdOrZero(tasks[i]) == id - 1
  {
    if |tasks| > 0 then MaxId(tasks) + 1 else 1
  }

  /** No two tasks carry the same id (tasks without an id never clash). */
  predicate UniqueIds(tasks: seq<Task>)
  {
    forall i, j :: 0 <= i < j < |tasks| && tasks[i].id.Some? ==> tasks[i].id != tasks[j].id
  }

  /** The task `createTask` appends for the form `form`. */
  function Created(tasks: seq<Task>, form: Task): (t: Task)
    ensures t.id == Some(NextId(tasks))
    ensures t.title == form.title && t.learningTime == form.learningTime && t.date == form.date
  {
    form.(id := Some(NextId(tasks)))
  }

  /** Appending the created task keeps ids unique, since its id exceeds every existing one. */
  lemma {:induction false} CreateKeepsIdsUnique(tasks: seq<Task>, form: Task)
    requires UniqueIds(tasks)
    ensures UniqueIds(tasks + [Created(tasks, form)])
  {
  }

  /** The three mock tasks the page starts with, ids 1 to 3. */
  function SeedTasks(): (tasks: seq<Task>)
    ensures |tasks| == 3
    ensures forall i :: 0 <= i < 3 ==> tasks[i].id == Some(i + 1)
    ensures UniqueIds(tasks)
  {
    [ Task(Some(1), "Review Angular Services", 25, "2026-01-14"),
      Task(Some(2), "Practice TypeScript", 40, "2026-01-14"),
      Task(Some(3), "Read about RxJS Observables", 15, "2026-01-15") ]
  }

  class TasksComponent {
    var tasks: seq<Task>
    var newTask: Task

    constructor ()
      ensures tasks == [] && newTask == EmptyForm
    {
      tasks := [];
      newTask := EmptyForm;
    }

    /** `ngOnInit`: replaces the list with the mock tasks. */
    method NgOnInit()
      modifies this
      ensures tasks == SeedTasks() && newTask == old(newTask)
    {
      tasks := SeedTasks();
    }

    /**
     * `createTask`: with a title and a date filled in, appends one task
     * carrying the form's fields and a fresh id, then clears the form;
     * otherwise changes nothing.
     */
    method CreateTask()
      modifies this
      ensures old(newTask.title) == "" || old(newTask.date) == "" ==>
        tasks == old(tasks) && newTask == old(newTask)
      ensures old(newTask.title) != "" && old(newTask.date) != "" ==>
        && tasks == old(tasks) + [Created(old(tasks), old(newTask))]
        && newTask == EmptyForm
      ensures UniqueIds(old(tasks)) ==> UniqueIds(tasks)
    {
      if newTask.title == "" || newTask.date == "" {
        return;
      }
      var newId := if |tasks| > 0 then MaxId(tasks) + 1 else 1;
      var task := newTask.(id := Some(newId));
      if UniqueIds(tasks) {
        CreateKeepsIdsUnique(tasks, newTask);
      }
      tasks := tasks + [task];
      newTask := EmptyForm;
    }
  }
}
