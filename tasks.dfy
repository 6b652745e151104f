/** The task generator (src/generators/tasks.py): twenty top-level tasks
    per project, each immediately followed by its block of subtasks (none,
    or one to three), and one or two tag links per top-level task.
    uuid4 ids and all random draws are inputs (TaskDraw); the description
    collaborator is the function `describe` of the context. */
module Tasks {
  import opened Common

  const PRIORITIES: seq<string> := ["High", "Medium", "Low", "None"]
  const TOP_LEVEL_COUNT := 20
  const TOP_DUE_DATE := "2026-03-15"
  const STANDARD_DESCRIPTION := "Standard task."
  const SUBTASK_DESCRIPTION := "Granular action item for parent task."
  const MAX_PHASE := 5
  const MAX_SUBTASKS := 3
  const MAX_TAGS := 2

  datatype Task = Task(
    taskId: string,
    projectId: string,
    sectionId: string,
    assigneeId: string,
    parentTaskId: Option<string>,
    name: string,
    description: string,
    priority: string,
    dueDate: Option<string>)

  datatype TagLink = TagLink(taskId: string, tagId: string)

  /** The arguments of create_tasks_for_project, with the description
      collaborator: generate_task_description(name, project_type). */
  datatype TaskContext = TaskContext(
    projectId: string,
    projectType: string,
    userIds: seq<string>,
    sectionIds: seq<string>,
    tagIds: seq<string>,
    describe: (string, string) -> string)

  /** The draws of one subtask: uuid4, choice(user_ids), choice(priorities)
      (random.choice returns an element of its argument). */
  datatype SubtaskDraw = SubtaskDraw(id: string, assignee: string, priority: string)

  /** The draws of one main-loop iteration: uuid4, choice(user_ids),
      choice(section_ids), randint(1, 5), choice(priorities), whether
      random() > 0.7, the subtasks (randint(1, 3) of them) and what
      random.sample takes from tag_ids (randint(1, 2) of them). */
  datatype TaskDraw = TaskDraw(
    id: string,
    assignee: string,
    section: string,
    phase: nat,
    priority: string,
    expand: bool,
    subtasks: seq<SubtaskDraw>,
    tags: seq<string>)

  /** The fallback of the description collaborator when it has no client. */
  function FallbackDescription(name: string, projectType: string): string {
    "Standard SOP for " + projectType + " task: " + name
  }

  predicate SubtaskDrawOk(ctx: TaskContext, s: SubtaskDraw) {
    s.assignee in ctx.userIds && s.priority in PRIORITIES
  }

  predicate TaskDrawOk(ctx: TaskContext, d: TaskDraw) {
    && d.assignee in ctx.userIds
    && d.section in ctx.sectionIds
    && 1 <= d.phase <= MAX_PHASE
    && d.priority in PRIORITIES
    && (d.expand ==> 1 <= |d.subtasks| <= MAX_SUBTASKS)
    && (forall j :: 0 <= j < |d.subtasks| ==> SubtaskDrawOk(ctx, d.subtasks[j]))
    && 1 <= |d.tags| <= MAX_TAGS
    && (forall k :: 0 <= k < |d.tags| ==> d.tags[k] in ctx.tagIds)
    && Distinct(d.tags)
  }

  predicate DrawsOk(ctx: TaskContext, draws: seq<TaskDraw>) {
    forall i :: 0 <= i < |draws| ==> TaskDrawOk(ctx, draws[i])
  }

  function TopName(projectType: string, i: nat, phase: nat): string {
    projectType + " Phase " + NatToString(phase) + ": Task " + NatToString(i + 1)
  }

  function SubtaskName(j: nat, parentName: string): string {
    "Subtask " + NatToString(j + 1) + ": " + parentName
  }

  /** The top-level task of iteration i. */
  function TopTask(ctx: TaskContext, i: nat, d: TaskDraw): Task {
    var name := TopName(ctx.projectType, i, d.phase);
    Task(d.id, ctx.projectId, d.section, d.assignee, None, name,
         if i < 1 then ctx.describe(name, ctx.projectType) else STANDARD_DESCRIPTION,
         d.priority, Some(TOP_DUE_DATE))
  }

  /** Subtask j of `parent`. */
  function Subtask(ctx: TaskContext, parent: Task, j: nat, s: SubtaskDraw): Task {
    Task(s.id, ctx.projectId, parent.sectionId, s.assignee, Some(parent.taskId),
         SubtaskName(j, parent.name), SUBTASK_DESCRIPTION, s.priority, None)
  }

  function Subtasks(ctx: TaskContext, parent: Task, subs: seq<SubtaskDraw>): seq<Task> {
    seq(|subs|, j requires 0 <= j < |subs| => Subtask(ctx, parent, j, subs[j]))
  }

  lemma SubtasksSnoc(ctx: TaskContext, parent: Task, subs: seq<SubtaskDraw>, j: nat)
    requires j < |subs|
    ensures Subtasks(ctx, parent, subs[..j + 1]) == Subtasks(ctx, parent, subs[..j]) + [Subtask(ctx, parent, j, subs[j])]
  {
  }

  /** What iteration i appends to the task list. */
  function Block(ctx: TaskContext, i: nat, d: TaskDraw): seq<Task> {
    var top := TopTask(ctx, i, d);
    [top] + (if d.expand then Subtasks(ctx, top, d.subtasks) else [])
  }

  /** What iteration i appends to the tag-link list. */
  function LinksOf(d: TaskDraw): seq<TagLink> {
    seq(|d.tags|, k requires 0 <= k < |d.tags| => TagLink(d.id, d.tags[k]))
  }

  /** The task list after the first n iterations. */
  function TasksUpTo(ctx: TaskContext, draws: seq<TaskDraw>, n: nat): seq<Task>
    requires n <= |draws|
  {
    if n == 0 then [] else TasksUpTo(ctx, draws, n - 1) + Block(ctx, n - 1, draws[n - 1])
  }

  /** The tag-link list after the first n iterations. */
  function LinksUpTo(draws: seq<TaskDraw>, n: nat): seq<TagLink>
    requires n <= |draws|
  {
    if n == 0 then [] else LinksUpTo(draws, n - 1) + LinksOf(draws[n - 1])
  }

  /** create_tasks_for_project */
  method CreateTasksForProject(ctx: TaskContext, draws: seq<TaskDraw>)
    returns (tasks: seq<Task>, tagLinks: seq<TagLink>)
    requires |draws| == TOP_LEVEL_COUNT && DrawsOk(ctx, draws)
    ensures tasks == TasksUpTo(ctx, draws, TOP_LEVEL_COUNT)
    ensures tagLinks == LinksUpTo(draws, TOP_LEVEL_COUNT)
  {
    tasks := [];
    tagLinks := [];
    for i := 0 to TOP_LEVEL_COUNT
      invariant tasks == TasksUpTo(ctx, draws, i)
      invariant tagLinks == LinksUpTo(draws, i)
    {
      var block := CreateTaskBlock(ctx, i, draws[i]);
      tasks := tasks + block;
      var links := LinkTags(draws[i]);
      tagLinks := tagLinks + links;
    }
  }

  /** The task part of iteration i: the main task, then its subtasks when
      the expansion draw says so. */
  method CreateTaskBlock(ctx: TaskContext, i: nat, d: TaskDraw) returns (block: seq<Task>)
    ensures block == Block(ctx, i, d)
  {
    var name := TopName(ctx.projectType, i, d.phase);
    var mainTask := Task(d.id, ctx.projectId, d.section, d.assignee, None, name,
                         if i < 1 then ctx.describe(name, ctx.projectType) else STANDARD_DESCRIPTION,
                         d.priority, Some(TOP_DUE_DATE));
    assert mainTask == TopTask(ctx, i, d);
    block := [mainTask];
    if d.expand {
      var subtasks := CreateSubtasks(ctx, mainTask, d.subtasks);
      block := block + subtasks;
    }
  }

  /** The subtask loop of one iteration: subtask j inherits the parent's
      project and section and points back at it. */
  method CreateSubtasks(ctx: TaskContext, parent: Task, subs: seq<SubtaskDraw>) returns (subtasks: seq<Task>)
    ensures subtasks == Subtasks(ctx, parent, subs)
  {
    subtasks := [];
    for j := 0 to |subs|
      invariant subtasks == Subtasks(ctx, parent, subs[..j])
    {
      var s := subs[j];
      SubtasksSnoc(ctx, parent, subs, j);
      subtasks := subtasks + [Task(s.id, ctx.projectId, parent.sectionId, s.assignee, Some(parent.taskId),
                                   SubtaskName(j, parent.name), SUBTASK_DESCRIPTION, s.priority, None)];
    }
    assert subs[..|subs|] == subs;
  }

  /** The tag loop of one iteration: one link per sampled tag. */
  method LinkTags(d: TaskDraw) returns (links: seq<TagLink>)
    ensures links == LinksOf(d)
  {
    links := [];
    for k := 0 to |d.tags|
      invariant links == LinksOf(d)[..k]
    {
      links := links + [TagLink(d.id, d.tags[k])];
    }
    assert LinksOf(d)[..|d.tags|] == LinksOf(d);
  }

  // ---------------------------------------------------------------------
  // Properties of the generated lists

  /** The top-level tasks of a list, in order. */
  function TopLevel(ts: seq<Task>): (r: seq<Task>)
    ensures |r| <= |ts|
    ensures forall k :: 0 <= k < |r| ==> r[k].parentTaskId.None?
  {
    if ts == [] then []
    else TopLevel(ts[..|ts| - 1]) + (if ts[|ts| - 1].parentTaskId.None? then [ts[|ts| - 1]] else [])
  }

  lemma {:induction false} TopLevelAppend(a: seq<Task>, b: seq<Task>)
    ensures TopLevel(a + b) == TopLevel(a) + TopLevel(b)
    decreases |b|
  {
    if b == [] {
      assert a + b == a;
    } else {
      assert (a + b)[..|a + b| - 1] == a + b[..|b| - 1];
      TopLevelAppend(a, b[..|b| - 1]);
    }
  }

  lemma {:induction false} TopLevelOfSubtasks(ts: seq<Task>)
    requires forall k :: 0 <= k < |ts| ==> ts[k].parentTaskId.Some?
    ensures TopLevel(ts) == []
    decreases |ts|
  {
    if ts != [] {
      TopLevelOfSubtasks(ts[..|ts| - 1]);
    }
  }

  /** The subtask at position k of a block names the block's own task as
      parent, shares its project and section and is called
      "Subtask <k>: <parent name>". */
  ghost predicate SubtaskOfBlockTop(b: seq<Task>, k: nat)
    requires 1 <= k < |b|
  {
    && b[k].parentTaskId == Some(b[0].taskId)
    && b[k].projectId == b[0].projectId
    && b[k].sectionId == b[0].sectionId
    && b[k].name == SubtaskName(k - 1, b[0].name)
  }

  /** The shape of one iteration's block: its top-level task first, then
      up to three subtasks of it. */
  lemma BlockShape(ctx: TaskContext, i: nat, d: TaskDraw)
    requires TaskDrawOk(ctx, d)
    ensures var b := Block(ctx, i, d);
      && 1 <= |b| <= 1 + MAX_SUBTASKS
      && (d.expand <==> |b| > 1)
      && b[0] == TopTask(ctx, i, d)
      && forall k :: 1 <= k < |b| ==> SubtaskOfBlockTop(b, k)
  {
    var b := Block(ctx, i, d);
    var top := TopTask(ctx, i, d);
    var subs := if d.expand then Subtasks(ctx, top, d.subtasks) else [];
    assert b == [top] + subs;
    forall k | 1 <= k < |b|
      ensures SubtaskOfBlockTop(b, k)
    {
      assert b[k] == Subtask(ctx, top, k - 1, d.subtasks[k - 1]);
    }
  }

  /** A block holds exactly one top-level task, its first. */
  lemma BlockTopLevel(ctx: TaskContext, i: nat, d: TaskDraw)
    ensures TopLevel(Block(ctx, i, d)) == [TopTask(ctx, i, d)]
  {
    var top := TopTask(ctx, i, d);
    var subs := if d.expand then Subtasks(ctx, top, d.subtasks) else [];
    assert Block(ctx, i, d) == [top] + subs;
    TopLevelOfSubtasks(subs);
    TopLevelAppend([top], subs);
    assert TopLevel([top]) == [top] by {
      assert [top][..0] == [];
    }
  }

  lemma TasksUpToStep(ctx: TaskContext, draws: seq<TaskDraw>, n: nat)
    requires 0 < n <= |draws|
    ensures TopLevel(TasksUpTo(ctx, draws, n)) == TopLevel(TasksUpTo(ctx, draws, n - 1)) + [TopTask(ctx, n - 1, draws[n - 1])]
  {
    BlockTopLevel(ctx, n - 1, draws[n - 1]);
    TopLevelAppend(TasksUpTo(ctx, draws, n - 1), Block(ctx, n - 1, draws[n - 1]));
  }

  /** Exactly one top-level task per loop index, and between one and four
      tasks and one or two tag links per index: twenty top-level tasks,
      20 to 80 tasks and 20 to 40 tag links per project. */
  lemma {:induction false} Counts(ctx: TaskContext, draws: seq<TaskDraw>, n: nat)
    requires n <= |draws| && DrawsOk(ctx, draws)
    ensures |TopLevel(TasksUpTo(ctx, draws, n))| == n
    ensures n <= |TasksUpTo(ctx, draws, n)| <= 4 * n
    ensures n <= |LinksUpTo(draws, n)| <= 2 * n
  {
    if n > 0 {
      Counts(ctx, draws, n - 1);
      BlockShape(ctx, n - 1, draws[n - 1]);
      TasksUpToStep(ctx, draws, n);
    }
  }

  /** The top-level tasks the first n iterations build, one per index. */
  function TopTasks(ctx: TaskContext, draws: seq<TaskDraw>, n: nat): (ts: seq<Task>)
    requires n <= |draws|
    ensures |ts| == n && forall i :: 0 <= i < n ==> ts[i] == TopTask(ctx, i, draws[i])
  {
    seq(n, i requires 0 <= i < n => TopTask(ctx, i, draws[i]))
  }

  /** The top-level tasks, in order, are the ones the iterations built. */
  lemma {:induction false} TopLevelInOrder(ctx: TaskContext, draws: seq<TaskDraw>, n: nat)
    requires n <= |draws|
    ensures TopLevel(TasksUpTo(ctx, draws, n)) == TopTasks(ctx, draws, n)
  {
    if n > 0 {
      TopLevelInOrder(ctx, draws, n - 1);
      TasksUpToStep(ctx, draws, n);
      TopTasksSnoc(ctx, draws, n);
    }
  }

  /** The top-level task of iteration i is in the list. */
  lemma {:induction false} TopTaskListed(ctx: TaskContext, draws: seq<TaskDraw>, n: nat, i: nat)
    requires i < n <= |draws|
    ensures TopTask(ctx, i, draws[i]) in TasksUpTo(ctx, draws, n)
  {
    var prev := TasksUpTo(ctx, draws, n - 1);
    var b := Block(ctx, n - 1, draws[n - 1]);
    assert TasksUpTo(ctx, draws, n) == prev + b;
    if i == n - 1 {
      assert (prev + b)[|prev|] == b[0];
    } else {
      TopTaskListed(ctx, draws, n - 1, i);
    }
  }

  /** Every tag link names a top-level task of the list. */
  lemma LinksNameListedTasks(ctx: TaskContext, draws: seq<TaskDraw>, n: nat)
    requires n <= |draws| && DrawsOk(ctx, draws)
    ensures forall l :: l in LinksUpTo(draws, n) ==>
      l.tagId in ctx.tagIds &&
      exists t :: t in TasksUpTo(ctx, draws, n) && t.taskId == l.taskId && t.parentTaskId.None?
  {
    LinksNameTopLevelTasks(ctx, draws, n);
    forall l | l in LinksUpTo(draws, n)
      ensures exists t :: t in TasksUpTo(ctx, draws, n) && t.taskId == l.taskId && t.parentTaskId.None?
    {
      var i :| 0 <= i < n && l.taskId == draws[i].id;
      TopTaskListed(ctx, draws, n, i);
    }
  }

  lemma TopTasksSnoc(ctx: TaskContext, draws: seq<TaskDraw>, n: nat)
    requires 0 < n <= |draws|
    ensures TopTasks(ctx, draws, n) == TopTasks(ctx, draws, n - 1) + [TopTask(ctx, n - 1, draws[n - 1])]
  {
    var ts := TopTasks(ctx, draws, n - 1) + [TopTask(ctx, n - 1, draws[n - 1])];
    assert forall i :: 0 <= i < n ==> TopTasks(ctx, draws, n)[i] == ts[i];
  }

  /** What the top-level task of iteration i is made of. */
  ghost predicate TopTaskShape(ctx: TaskContext, i: nat, d: TaskDraw, t: Task) {
    && t.taskId == d.id
    && t.parentTaskId.None?
    && t.dueDate == Some(TOP_DUE_DATE)
    && t.name == TopName(ctx.projectType, i, d.phase)
    && 1 <= d.phase <= MAX_PHASE
    && t.description == (if i == 0 then ctx.describe(t.name, ctx.projectType) else STANDARD_DESCRIPTION)
  }

  /** The i-th top-level task is the one iteration i built: the
      collaborator's description for i == 0 only, "Standard task."
      otherwise, the name "<type> Phase <k>: Task <i+1>" with k in [1, 5],
      the fixed due date and no parent. */
  lemma TopLevelTasks(ctx: TaskContext, draws: seq<TaskDraw>, n: nat)
    requires n <= |draws| && DrawsOk(ctx, draws)
    ensures |TopLevel(TasksUpTo(ctx, draws, n))| == n
    ensures forall i :: 0 <= i < n ==> TopTaskShape(ctx, i, draws[i], TopLevel(TasksUpTo(ctx, draws, n))[i])
  {
    TopLevelInOrder(ctx, draws, n);
    forall i | 0 <= i < n
      ensures TopTaskShape(ctx, i, draws[i], TopLevel(TasksUpTo(ctx, draws, n))[i])
    {
      assert TaskDrawOk(ctx, draws[i]);
    }
  }

  /** What every generated task satisfies on its own. */
  ghost predicate TaskFieldsOk(ctx: TaskContext, t: Task) {
    && t.projectId == ctx.projectId
    && t.assigneeId in ctx.userIds
    && t.sectionId in ctx.sectionIds
    && t.priority in PRIORITIES
    && (t.parentTaskId.None? ==> t.dueDate == Some(TOP_DUE_DATE))
    && (t.parentTaskId.Some? ==> t.dueDate.None? && t.description == SUBTASK_DESCRIPTION)
  }

  /** Every task belongs to the project, is assigned from the given users,
      lies in one of the given sections and has one of the four
      priorities; top-level tasks are due on the fixed date, subtasks have
      no due date and the fixed subtask description. */
  lemma {:induction false} AllTasksFieldsOk(ctx: TaskContext, draws: seq<TaskDraw>, n: nat)
    requires n <= |draws| && DrawsOk(ctx, draws)
    ensures forall k :: 0 <= k < |TasksUpTo(ctx, draws, n)| ==> TaskFieldsOk(ctx, TasksUpTo(ctx, draws, n)[k])
  {
    if n > 0 {
      AllTasksFieldsOk(ctx, draws, n - 1);
      var d := draws[n - 1];
      var top := TopTask(ctx, n - 1, d);
      assert TaskFieldsOk(ctx, top);
      if d.expand {
        forall j | 0 <= j < |d.subtasks|
          ensures TaskFieldsOk(ctx, Subtasks(ctx, top, d.subtasks)[j])
        {
          assert SubtaskDrawOk(ctx, d.subtasks[j]);
        }
      }
    }
  }

  /** Position j holds the parent of the subtask at position k: a
      top-level task no more than three positions back, every task in
      between a sibling, and the subtask copies the parent's project and
      section and is called "Subtask <k-j>: <parent name>". */
  ghost predicate ParentAt(ts: seq<Task>, j: nat, k: nat) {
    && j < k < |ts| && k - j <= MAX_SUBTASKS
    && ts[j].parentTaskId.None?
    && ts[k].parentTaskId == Some(ts[j].taskId)
    && ts[k].projectId == ts[j].projectId
    && ts[k].sectionId == ts[j].sectionId
    && ts[k].name == SubtaskName(k - j - 1, ts[j].name)
    && forall m :: j < m <= k ==> ts[m].parentTaskId == Some(ts[j].taskId)
  }

  lemma ParentAtExtend(ts: seq<Task>, more: seq<Task>, j: nat, k: nat)
    requires ParentAt(ts, j, k)
    ensures ParentAt(ts + more, j, k)
  {
    assert forall m :: j <= m <= k ==> (ts + more)[m] == ts[m];
  }

  lemma ParentAtBlock(prev: seq<Task>, b: seq<Task>, k: nat)
    requires 1 <= |b| && b[0].parentTaskId.None?
    requires |prev| < k < |prev| + |b| <= |prev| + 1 + MAX_SUBTASKS
    requires forall m :: 1 <= m < |b| ==> SubtaskOfBlockTop(b, m)
    ensures ParentAt(prev + b, |prev|, k)
  {
    var ts := prev + b;
    var j := |prev|;
    assert forall m :: j <= m < |ts| ==> ts[m] == b[m - j];
    assert SubtaskOfBlockTop(b, k - j);
    forall m | j < m <= k
      ensures ts[m].parentTaskId == Some(ts[j].taskId)
    {
      assert SubtaskOfBlockTop(b, m - j);
    }
  }

  /** Subtasks come right after their parent (see ParentAt). */
  lemma {:induction false} SubtasksFollowParent(ctx: TaskContext, draws: seq<TaskDraw>, n: nat, k: nat)
    requires n <= |draws| && DrawsOk(ctx, draws)
    requires k < |TasksUpTo(ctx, draws, n)|
    requires TasksUpTo(ctx, draws, n)[k].parentTaskId.Some?
    ensures exists j :: ParentAt(TasksUpTo(ctx, draws, n), j, k)
  {
    var prev := TasksUpTo(ctx, draws, n - 1);
    var b := Block(ctx, n - 1, draws[n - 1]);
    assert TasksUpTo(ctx, draws, n) == prev + b;
    if k < |prev| {
      assert prev[k] == TasksUpTo(ctx, draws, n)[k];
      SubtasksFollowParent(ctx, draws, n - 1, k);
      var j :| ParentAt(prev, j, k);
      ParentAtExtend(prev, b, j, k);
    } else {
      BlockShape(ctx, n - 1, draws[n - 1]);
      assert k != |prev|;
      ParentAtBlock(prev, b, k);
    }
  }

  /** The ids of a task list, in order. */
  function TaskIds(ts: seq<Task>): (ids: seq<string>)
    ensures |ids| == |ts| && forall k :: 0 <= k < |ts| ==> ids[k] == ts[k].taskId
  {
    seq(|ts|, k requires 0 <= k < |ts| => ts[k].taskId)
  }

  /** Nesting is one level deep: when task ids are fresh, any task that
      some task names as its parent is a top-level task placed before it. */
  lemma NoSubtaskIsAParent(ctx: TaskContext, draws: seq<TaskDraw>, n: nat, a: nat, b: nat)
    requires n <= |draws| && DrawsOk(ctx, draws)
    requires Distinct(TaskIds(TasksUpTo(ctx, draws, n)))
    requires a < |TasksUpTo(ctx, draws, n)| && b < |TasksUpTo(ctx, draws, n)|
    requires TasksUpTo(ctx, draws, n)[a].parentTaskId == Some(TasksUpTo(ctx, draws, n)[b].taskId)
    ensures TasksUpTo(ctx, draws, n)[b].parentTaskId.None? && b < a
  {
    var ts := TasksUpTo(ctx, draws, n);
    SubtasksFollowParent(ctx, draws, n, a);
    var j: nat :| ParentAt(ts, j, a);
    assert TaskIds(ts)[j] == TaskIds(ts)[b];
  }

  /** Top-level names of one project are pairwise distinct: the task
      number after "Task " tells them apart. */
  lemma TopNamesDistinct(projectType: string, i: nat, p: nat, i': nat, p': nat)
    requires 1 <= p <= MAX_PHASE && 1 <= p' <= MAX_PHASE
    requires i != i'
    ensures TopName(projectType, i, p) != TopName(projectType, i', p')
  {
    var head := projectType + " Phase " + NatToString(p) + ": Task ";
    var head' := projectType + " Phase " + NatToString(p') + ": Task ";
    assert |head| == |head'|;
    if TopName(projectType, i, p) == TopName(projectType, i', p') {
      assert TopName(projectType, i, p)[|head|..] == NatToString(i + 1);
      assert TopName(projectType, i', p')[|head'|..] == NatToString(i' + 1);
      NatToStringInjective(i + 1, i' + 1);
    }
  }

  /** The tag links of one task id. */
  function LinksFor(links: seq<TagLink>, taskId: string): (r: seq<TagLink>)
    ensures forall k :: 0 <= k < |r| ==> r[k].taskId == taskId
  {
    if links == [] then []
    else LinksFor(links[..|links| - 1], taskId)
         + (if links[|links| - 1].taskId == taskId then [links[|links| - 1]] else [])
  }

  lemma {:induction false} LinksForAppend(a: seq<TagLink>, b: seq<TagLink>, taskId: string)
    ensures LinksFor(a + b, taskId) == LinksFor(a, taskId) + LinksFor(b, taskId)
    decreases |b|
  {
    if b == [] {
      assert a + b == a;
    } else {
      assert (a + b)[..|a + b| - 1] == a + b[..|b| - 1];
      LinksForAppend(a, b[..|b| - 1], taskId);
    }
  }

  lemma {:induction false} LinksForAll(links: seq<TagLink>, taskId: string)
    requires forall k :: 0 <= k < |links| ==> links[k].taskId == taskId
    ensures LinksFor(links, taskId) == links
    decreases |links|
  {
    if links != [] {
      LinksForAll(links[..|links| - 1], taskId);
    }
  }

  lemma {:induction false} LinksForNone(links: seq<TagLink>, taskId: string)
    requires forall k :: 0 <= k < |links| ==> links[k].taskId != taskId
    ensures LinksFor(links, taskId) == []
    decreases |links|
  {
    if links != [] {
      LinksForNone(links[..|links| - 1], taskId);
    }
  }

  /** The ids of the top-level draws. */
  function TopIds(draws: seq<TaskDraw>): (ids: seq<string>)
    ensures |ids| == |draws| && forall i :: 0 <= i < |draws| ==> ids[i] == draws[i].id
  {
    seq(|draws|, i requires 0 <= i < |draws| => draws[i].id)
  }

  /** Every tag link names a top-level task of an earlier-or-current
      iteration and a tag from tag_ids. */
  lemma {:induction false} LinksNameTopLevelTasks(ctx: TaskContext, draws: seq<TaskDraw>, n: nat)
    requires n <= |draws| && DrawsOk(ctx, draws)
    ensures forall l :: l in LinksUpTo(draws, n) ==>
      l.tagId in ctx.tagIds && exists i :: 0 <= i < n && l.taskId == draws[i].id
  {
    if n > 0 {
      LinksNameTopLevelTasks(ctx, draws, n - 1);
      var d := draws[n - 1];
      assert TaskDrawOk(ctx, d);
      forall l | l in LinksOf(d)
        ensures l.tagId in ctx.tagIds && l.taskId == draws[n - 1].id
      {
        var k :| 0 <= k < |d.tags| && l == LinksOf(d)[k];
      }
    }
  }

  /** One iteration's links: one or two, all naming its task, each with a
      distinct tag from tag_ids. */
  lemma LinksOfShape(ctx: TaskContext, d: TaskDraw)
    requires TaskDrawOk(ctx, d)
    ensures var ls := LinksOf(d);
      && 1 <= |ls| <= MAX_TAGS
      && (forall k :: 0 <= k < |ls| ==> ls[k].taskId == d.id && ls[k].tagId in ctx.tagIds)
      && (forall a, b :: 0 <= a < b < |ls| ==> ls[a].tagId != ls[b].tagId)
  {
  }

  /** With fresh top-level ids, the links of the i-th top-level task are
      exactly those its own iteration made. */
  lemma {:induction false} LinksPerTopLevelTask(draws: seq<TaskDraw>, n: nat, i: nat)
    requires n <= |draws|
    requires Distinct(TopIds(draws))
    requires i < n
    ensures LinksFor(LinksUpTo(draws, n), draws[i].id) == LinksOf(draws[i])
  {
    var id := draws[i].id;
    var prev := LinksUpTo(draws, n - 1);
    var last := LinksOf(draws[n - 1]);
    LinksForAppend(prev, last, id);
    if i == n - 1 {
      IdNotYetLinked(draws, n - 1);
      LinksForAll(last, id);
      assert [] + last == last;
    } else {
      assert TopIds(draws)[i] != TopIds(draws)[n - 1];
      LinksForNone(last, id);
      LinksPerTopLevelTask(draws, n - 1, i);
      assert LinksOf(draws[i]) + [] == LinksOf(draws[i]);
    }
  }

  /** Before iteration k, no link names the id drawn at k. */
  lemma IdNotYetLinked(draws: seq<TaskDraw>, k: nat)
    requires k < |draws|
    requires Distinct(TopIds(draws))
    ensures LinksFor(LinksUpTo(draws, k), draws[k].id) == []
  {
    LinksNotYetMade(draws, k, draws[k].id);
  }

  /** A link made by the first n iterations names one of their ids. */
  lemma {:induction false} LinksNameEarlierIds(draws: seq<TaskDraw>, n: nat, m: nat)
    requires n <= |draws| && m < |LinksUpTo(draws, n)|
    ensures exists i :: 0 <= i < n && LinksUpTo(draws, n)[m].taskId == draws[i].id
  {
    var prev := LinksUpTo(draws, n - 1);
    if m < |prev| {
      LinksNameEarlierIds(draws, n - 1, m);
      assert LinksUpTo(draws, n)[m] == prev[m];
    } else {
      assert LinksUpTo(draws, n)[m] == LinksOf(draws[n - 1])[m - |prev|];
    }
  }

  /** Before an id's iteration, no link names it. */
  lemma LinksNotYetMade(draws: seq<TaskDraw>, n: nat, id: string)
    requires n <= |draws|
    requires forall i :: 0 <= i < n ==> draws[i].id != id
    ensures LinksFor(LinksUpTo(draws, n), id) == []
  {
    var ls := LinksUpTo(draws, n);
    forall m | 0 <= m < |ls|
      ensures ls[m].taskId != id
    {
      LinksNameEarlierIds(draws, n, m);
    }
    LinksForNone(ls, id);
  }
}
