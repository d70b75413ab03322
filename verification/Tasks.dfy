/** The task list screen (src/pages/Tasks.tsx): an in-memory list of tasks with
    search and select filters, a create/edit form and a confirmed delete. */
module Tasks {
  import opened Wrappers
  import opened Seqs
  import opened Text

  datatype Priority = High | Medium | Low
  datatype TaskStatus = Pending | InProgress | Completed

  /** `Task`. */
  datatype Task = Task(
    id: int,
    title: string,
    description: string,
    client: string,
    assignee: string,
    priority: Priority,
    status: TaskStatus,
    dueDate: string)

  function TaskId(t: Task): int { t.id }

  /** The form's fields as typed. */
  datatype TaskInput = TaskInput(title: string, client: string, assignee: string, dueDate: string,
                                 priority: string, description: string)

  /** The form's fields after `taskSchema` accepted them. */
  datatype TaskForm = TaskForm(title: string, client: string, assignee: string, dueDate: string,
                               priority: Priority, description: string)

  function PriorityName(p: Priority): string
  {
    match p
    case High => "high"
    case Medium => "medium"
    case Low => "low"
  }

  /** `oneOf(['high', 'medium', 'low'])`. */
  function ParsePriority(s: string): (r: Option<Priority>)
    ensures r.Some? ==> PriorityName(r.value) == s
    ensures r.None? ==> forall p: Priority :: PriorityName(p) != s
  {
    if s == "high" then Some(High)
    else if s == "medium" then Some(Medium)
    else if s == "low" then Some(Low)
    else None
  }

  /** `taskSchema`: title, client, assignee and due date must be non-empty and the
      priority one of the three; the description is free. */
  function ValidateTask(input: TaskInput): (r: Option<TaskForm>)
    ensures r.Some? <==>
      && input.title != "" && input.client != "" && input.assignee != "" && input.dueDate != ""
      && input.priority in {"high", "medium", "low"}
    ensures r.Some? ==>
      && r.value.title == input.title && r.value.client == input.client
      && r.value.assignee == input.assignee && r.value.dueDate == input.dueDate
      && PriorityName(r.value.priority) == input.priority && r.value.description == input.description
  {
    if input.title == "" || input.client == "" || input.assignee == "" || input.dueDate == "" then None
    else match ParsePriority(input.priority)
      case None => None
      case Some(p) => Some(TaskForm(input.title, input.client, input.assignee, input.dueDate, p, input.description))
  }

  /** The form a task opens with validates back to that task's own fields. */
  lemma ValidateOpenedTask(t: Task)
    requires t.title != "" && t.client != "" && t.assignee != "" && t.dueDate != ""
    ensures ValidateTask(TaskInput(t.title, t.client, t.assignee, t.dueDate, PriorityName(t.priority), t.description))
            == Some(TaskForm(t.title, t.client, t.assignee, t.dueDate, t.priority, t.description))
  {
  }

  /** One row of `filteredTasks`: the search hits title, client or assignee, and both selects admit the task. */
  predicate TaskShown(t: Task, search: string, status: Choice<TaskStatus>, priority: Choice<Priority>)
  {
    && (MatchesSearch(t.title, search) || MatchesSearch(t.client, search) || MatchesSearch(t.assignee, search))
    && Admits(status, t.status)
    && Admits(priority, t.priority)
  }

  /** `filteredTasks`: exactly the tasks shown, in list order; with no search and both
      selects on `all` it is the whole list. */
  function FilteredTasks(tasks: seq<Task>, search: string, status: Choice<TaskStatus>, priority: Choice<Priority>): (r: seq<Task>)
    ensures forall i :: 0 <= i < |r| ==> r[i] in tasks && TaskShown(r[i], search, status, priority)
    ensures forall i :: 0 <= i < |tasks| && TaskShown(tasks[i], search, status, priority) ==> tasks[i] in r
    ensures IsSubsequence(r, tasks)
    ensures search == "" && status == All && priority == All ==> r == tasks
  {
    FilterIsSubsequence(tasks, Shown(search, status, priority));
    NoFilterShowsAll(tasks);
    Filter(tasks, Shown(search, status, priority))
  }

  /** `task => matchesSearch && matchesStatus && matchesPriority`. */
  function Shown(search: string, status: Choice<TaskStatus>, priority: Choice<Priority>): Task -> bool
  {
    (t: Task) => TaskShown(t, search, status, priority)
  }

  lemma NoFilterShowsAll(tasks: seq<Task>)
    ensures Filter(tasks, Shown("", All, All)) == tasks
  {
    forall i | 0 <= i < |tasks| ensures Shown("", All, All)(tasks[i]) {
      EmptySearchMatches(tasks[i].title);
    }
    FilterKeepsAll(tasks, Shown("", All, All));
  }

  /** `tasks.length > 0 ? Math.max(...tasks.map(t => t.id)) + 1 : 1`: one more than the
      largest id, so larger than every id. */
  function NextTaskId(tasks: seq<Task>): (r: int)
    ensures forall i :: 0 <= i < |tasks| ==> tasks[i].id < r
    ensures tasks == [] ==> r == 1
    ensures tasks != [] ==> exists i :: 0 <= i < |tasks| && r == tasks[i].id + 1
  {
    var ids := Map(tasks, TaskId);
    assert forall i :: 0 <= i < |ids| ==> ids[i] == tasks[i].id;
    MaxPlusOne(ids)
  }

  /** `{ id, ...data, status: 'pending' }`. */
  function CreatedTask(id: int, form: TaskForm): Task
  {
    Task(id, form.title, form.description, form.client, form.assignee, form.priority, Pending, form.dueDate)
  }

  /** `{ ...t, ...data }`: the form's fields over the task; id and status stay. */
  function Overwritten(t: Task, form: TaskForm): Task
  {
    t.(title := form.title, description := form.description, client := form.client,
       assignee := form.assignee, priority := form.priority, dueDate := form.dueDate)
  }

  /** `tasks.map(t => t.id === editingId ? { ...t, ...data } : t)`: only tasks with that
      id change, and they keep their id and status. */
  function EditedTasks(tasks: seq<Task>, editingId: int, form: TaskForm): (r: seq<Task>)
    ensures |r| == |tasks|
    ensures forall i :: 0 <= i < |tasks| && tasks[i].id != editingId ==> r[i] == tasks[i]
    ensures forall i :: 0 <= i < |tasks| && tasks[i].id == editingId ==> r[i] == Overwritten(tasks[i], form)
    ensures forall i :: 0 <= i < |tasks| ==> r[i].id == tasks[i].id && r[i].status == tasks[i].status
  {
    MapWhere(tasks, (t: Task) => t.id == editingId, (t: Task) => Overwritten(t, form))
  }

  /** Creating keeps ids unique: the new id is fresh. */
  lemma CreateKeepsIdsUnique(tasks: seq<Task>, form: TaskForm)
    requires DistinctBy(tasks, TaskId)
    ensures DistinctBy([CreatedTask(NextTaskId(tasks), form)] + tasks, TaskId)
  {
    var r := [CreatedTask(NextTaskId(tasks), form)] + tasks;
    forall i, j | 0 <= i < j < |r| ensures TaskId(r[i]) != TaskId(r[j]) {
      assert r[j] == tasks[j - 1];
      if i > 0 {
        assert r[i] == tasks[i - 1];
      }
    }
  }

  class TasksPage {
    var tasks: seq<Task>
    var searchTerm: string
    var statusFilter: Choice<TaskStatus>
    var priorityFilter: Choice<Priority>
    var isModalOpen: bool
    var editingTask: Option<Task>
    var deletingTaskId: Option<int>

    /** Task ids are unique. */
    predicate Valid()
      reads this
    {
      DistinctBy(tasks, TaskId)
    }

    /** Mounting with the generated tasks, numbered `1..n`; no search, both selects on `all`. */
    constructor (seed: seq<Task>)
      requires forall i :: 0 <= i < |seed| ==> seed[i].id == i + 1
      ensures Valid()
      ensures tasks == seed && searchTerm == "" && statusFilter == All && priorityFilter == All
      ensures !isModalOpen && editingTask.None? && deletingTaskId.None?
    {
      tasks := seed;
      searchTerm := "";
      statusFilter := All;
      priorityFilter := All;
      isModalOpen := false;
      editingTask := None;
      deletingTaskId := None;
    }

    /** The list the table shows. */
    function Visible(): (r: seq<Task>)
      reads this
      ensures IsSubsequence(r, tasks)
      ensures forall i :: 0 <= i < |r| ==> TaskShown(r[i], searchTerm, statusFilter, priorityFilter)
      ensures forall i :: 0 <= i < |tasks| && TaskShown(tasks[i], searchTerm, statusFilter, priorityFilter) ==> tasks[i] in r
    {
      FilteredTasks(tasks, searchTerm, statusFilter, priorityFilter)
    }

    /** `handleOpenModal(task)`: the modal opens on a task to edit, or on a blank form. */
    method OpenModal(task: Option<Task>)
      requires Valid()
      modifies this
      ensures Valid()
      ensures searchTerm == old(searchTerm) && statusFilter == old(statusFilter) && priorityFilter == old(priorityFilter)
      ensures isModalOpen && editingTask == task
      ensures tasks == old(tasks) && deletingTaskId == old(deletingTaskId)
    {
      editingTask := task;
      isModalOpen := true;
    }

    /** `handleCloseModal`. */
    method CloseModal()
      requires Valid()
      modifies this
      ensures Valid()
      ensures searchTerm == old(searchTerm) && statusFilter == old(statusFilter) && priorityFilter == old(priorityFilter)
      ensures !isModalOpen && editingTask.None?
      ensures tasks == old(tasks) && deletingTaskId == old(deletingTaskId)
    {
      isModalOpen := false;
      editingTask := None;
    }

    /** `handleSubmit(onSubmit)`: input rejected by the schema changes nothing; otherwise the
        edited task is overwritten, or a new pending task with a fresh id goes first, and
        the modal closes. */
    method Submit(input: TaskInput)
      requires Valid()
      modifies this
      ensures Valid()
      ensures searchTerm == old(searchTerm) && statusFilter == old(statusFilter) && priorityFilter == old(priorityFilter)
      ensures deletingTaskId == old(deletingTaskId)
      ensures ValidateTask(input).None? ==>
        tasks == old(tasks) && isModalOpen == old(isModalOpen) && editingTask == old(editingTask)
      ensures ValidateTask(input).Some? ==> !isModalOpen && editingTask.None?
      ensures ValidateTask(input).Some? && old(editingTask).Some? ==>
        tasks == EditedTasks(old(tasks), old(editingTask).value.id, ValidateTask(input).value)
      ensures ValidateTask(input).Some? && old(editingTask).None? ==>
        tasks == [CreatedTask(NextTaskId(old(tasks)), ValidateTask(input).value)] + old(tasks)
    {
      var checked := ValidateTask(input);
      if checked.None? {
        return;
      }
      var form := checked.value;
      if editingTask.Some? {
        tasks := EditedTasks(tasks, editingTask.value.id, form);
      } else {
        CreateKeepsIdsUnique(tasks, form);
        tasks := [CreatedTask(NextTaskId(tasks), form)] + tasks;
      }
      CloseModal();
    }

    /** The row's delete button, and the dialog's dismissal (`None`). */
    method SetDeleting(id: Option<int>)
      requires Valid()
      modifies this
      ensures Valid()
      ensures searchTerm == old(searchTerm) && statusFilter == old(statusFilter) && priorityFilter == old(priorityFilter)
      ensures deletingTaskId == id
      ensures tasks == old(tasks) && isModalOpen == old(isModalOpen) && editingTask == old(editingTask)
    {
      deletingTaskId := id;
    }

    /** `handleDeleteTask`: with a pending id (`0` counts as none) every task with it goes
        and the pending id is cleared; otherwise nothing happens. */
    method DeleteTask()
      requires Valid()
      modifies this
      ensures Valid()
      ensures searchTerm == old(searchTerm) && statusFilter == old(statusFilter) && priorityFilter == old(priorityFilter)
      ensures isModalOpen == old(isModalOpen) && editingTask == old(editingTask)
      ensures old(deletingTaskId).None? || old(deletingTaskId) == Some(0) ==>
        tasks == old(tasks) && deletingTaskId == old(deletingTaskId)
      ensures old(deletingTaskId).Some? && old(deletingTaskId) != Some(0) ==>
        tasks == RemoveKey(old(tasks), TaskId, old(deletingTaskId).value) && deletingTaskId.None?
    {
      if deletingTaskId.Some? && deletingTaskId.value != 0 {
        RemoveKeyKeepsDistinct(tasks, TaskId, deletingTaskId.value);
        tasks := RemoveKey(tasks, TaskId, deletingTaskId.value);
        deletingTaskId := None;
      }
    }
  }
}
