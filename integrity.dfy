/** The references between the rows a complete run leaves (src/main.py,
    run): every team names the organization, every membership a team and
    a user, every project a team, every section a project; every task's
    project belongs to a team its assignee is a member of, its section
    belongs to its project and a subtask's parent is a top-level task of
    the same project and section; every tag link names a top-level task
    and a tag. The run relies on these without the store enforcing them. */
module Integrity {
  import opened Common
  import opened Store
  import opened Orchestrator
  import Users
  import Projects
  import Tasks
  import Report

  // ---------------------------------------------------------------------
  // What a row may refer to

  ghost predicate HasOrg(c: Contents, id: Value) {
    exists o :: o in c.orgs && |o| == 3 && o[0] == id
  }

  ghost predicate HasTag(c: Contents, id: Value) {
    exists g :: g in c.tags && |g| == 3 && g[0] == id
  }

  ghost predicate HasUser(c: Contents, id: Value) {
    exists u :: u in c.users && |u| == 6 && u[0] == id
  }

  ghost predicate HasTeam(c: Contents, id: Value) {
    exists t :: t in c.teams && |t| == 4 && t[0] == id
  }

  /** A membership row puts `user` in `team`. */
  ghost predicate HasMember(c: Contents, team: Value, user: Value) {
    exists m :: m in c.memberships && |m| == 3 && m[1] == team && m[2] == user
  }

  ghost predicate HasProject(c: Contents, id: Value) {
    exists p :: p in c.projects && |p| == 4 && p[0] == id
  }

  /** The project `project` belongs to a team `user` is a member of. */
  ghost predicate StaffedBy(c: Contents, project: Value, user: Value) {
    exists p :: p in c.projects && |p| == 4 && p[0] == project && HasMember(c, p[1], user)
  }

  ghost predicate HasSection(c: Contents, id: Value, project: Value) {
    exists s :: s in c.sections && |s| == 3 && s[0] == id && s[1] == project
  }

  /** A top-level task row with this id, project and section. */
  predicate IsParentRow(q: Row, id: Value, project: Value, section: Value) {
    |q| == 9 && q[0] == id && q[4] == Null && q[1] == project && q[2] == section
  }

  /** Some row of `rows` is such a parent. Written as a scan rather than
      an existential so that a task row's parent, itself a task row, does
      not start an endless chain of quantifier instances. */
  predicate ParentListed(rows: seq<Row>, id: Value, project: Value, section: Value)
    decreases |rows|
  {
    |rows| > 0 && (IsParentRow(rows[|rows| - 1], id, project, section) || ParentListed(rows[..|rows| - 1], id, project, section))
  }

  lemma {:induction false} ParentListedIn(rows: seq<Row>, q: Row, id: Value, project: Value, section: Value)
    requires q in rows && IsParentRow(q, id, project, section)
    ensures ParentListed(rows, id, project, section)
    decreases |rows|
  {
    var n := |rows|;
    if rows[n - 1] != q {
      assert rows == rows[..n - 1] + [rows[n - 1]];
      assert q in rows[..n - 1];
      ParentListedIn(rows[..n - 1], q, id, project, section);
    }
  }

  lemma {:induction false} ParentListedWitness(rows: seq<Row>, id: Value, project: Value, section: Value)
    requires ParentListed(rows, id, project, section)
    ensures exists q :: q in rows && IsParentRow(q, id, project, section)
    decreases |rows|
  {
    var n := |rows|;
    if !IsParentRow(rows[n - 1], id, project, section) {
      ParentListedWitness(rows[..n - 1], id, project, section);
      var q :| q in rows[..n - 1] && IsParentRow(q, id, project, section);
      assert q in rows;
    }
  }

  ghost predicate HasParent(c: Contents, id: Value, project: Value, section: Value) {
    ParentListed(c.tasks, id, project, section)
  }

  /** A top-level task row with this id. */
  ghost predicate HasTopLevelTask(c: Contents, id: Value) {
    exists q :: q in c.tasks && |q| == 9 && q[0] == id && q[4] == Null
  }

  // ---------------------------------------------------------------------
  // Rows whose references are backed by c

  ghost predicate TeamRowOk(c: Contents, r: Row) {
    |r| == 4 && HasOrg(c, r[1])
  }

  ghost predicate MembershipRowOk(c: Contents, r: Row) {
    |r| == 3 && HasTeam(c, r[1]) && HasUser(c, r[2])
  }

  ghost predicate ProjectRowOk(c: Contents, r: Row) {
    |r| == 4 && HasTeam(c, r[1])
  }

  ghost predicate SectionRowOk(c: Contents, r: Row) {
    |r| == 3 && HasProject(c, r[1])
  }

  ghost predicate TaskRowOk(c: Contents, r: Row) {
    && |r| == 9
    && StaffedBy(c, r[1], r[3])
    && HasSection(c, r[2], r[1])
    && (r[4] != Null ==> HasParent(c, r[4], r[1], r[2]))
  }

  ghost predicate LinkRowOk(c: Contents, r: Row) {
    |r| == 2 && HasTopLevelTask(c, r[0]) && HasTag(c, r[1])
  }

  /** Every row of c that refers to other rows refers to rows of c. */
  ghost predicate Referential(c: Contents) {
    && (forall r :: r in c.teams ==> TeamRowOk(c, r))
    && (forall r :: r in c.memberships ==> MembershipRowOk(c, r))
    && (forall r :: r in c.projects ==> ProjectRowOk(c, r))
    && (forall r :: r in c.sections ==> SectionRowOk(c, r))
    && (forall r :: r in c.tasks ==> TaskRowOk(c, r))
    && (forall r :: r in c.taskTags ==> LinkRowOk(c, r))
  }

  // ---------------------------------------------------------------------
  // Growing a store keeps what its rows refer to

  /** Every table of c is a prefix of the same table of c'. */
  ghost predicate Grows(c: Contents, c': Contents) {
    && c.orgs <= c'.orgs && c.tags <= c'.tags && c.users <= c'.users && c.teams <= c'.teams
    && c.memberships <= c'.memberships && c.projects <= c'.projects && c.sections <= c'.sections
    && c.tasks <= c'.tasks && c.taskTags <= c'.taskTags && c.comments <= c'.comments
  }

  lemma InPrefix(x: Row, a: seq<Row>, b: seq<Row>)
    requires x in a && a <= b
    ensures x in b
  {
    var i :| 0 <= i < |a| && a[i] == x;
    assert b[i] == x;
  }

  lemma StaffedByGrows(c: Contents, c': Contents, project: Value, user: Value)
    requires Grows(c, c') && StaffedBy(c, project, user)
    ensures StaffedBy(c', project, user)
  {
    var p :| p in c.projects && |p| == 4 && p[0] == project && HasMember(c, p[1], user);
    var m :| m in c.memberships && |m| == 3 && m[1] == p[1] && m[2] == user;
    InPrefix(p, c.projects, c'.projects);
    InPrefix(m, c.memberships, c'.memberships);
  }

  lemma TaskRowGrows(c: Contents, c': Contents, r: Row)
    requires Grows(c, c') && TaskRowOk(c, r)
    ensures TaskRowOk(c', r)
  {
    StaffedByGrows(c, c', r[1], r[3]);
    var s :| s in c.sections && |s| == 3 && s[0] == r[2] && s[1] == r[1];
    InPrefix(s, c.sections, c'.sections);
    if r[4] != Null {
      ParentListedWitness(c.tasks, r[4], r[1], r[2]);
      var q :| q in c.tasks && IsParentRow(q, r[4], r[1], r[2]);
      InPrefix(q, c.tasks, c'.tasks);
      ParentListedIn(c'.tasks, q, r[4], r[1], r[2]);
    }
  }

  lemma OtherRowsGrow(c: Contents, c': Contents, r: Row)
    requires Grows(c, c')
    ensures TeamRowOk(c, r) ==> TeamRowOk(c', r)
    ensures MembershipRowOk(c, r) ==> MembershipRowOk(c', r)
    ensures ProjectRowOk(c, r) ==> ProjectRowOk(c', r)
    ensures SectionRowOk(c, r) ==> SectionRowOk(c', r)
    ensures LinkRowOk(c, r) ==> LinkRowOk(c', r)
  {
    if |r| >= 2 && HasOrg(c, r[1]) {
      var o :| o in c.orgs && |o| == 3 && o[0] == r[1];
      InPrefix(o, c.orgs, c'.orgs);
    }
    if |r| >= 2 && HasTeam(c, r[1]) {
      var t :| t in c.teams && |t| == 4 && t[0] == r[1];
      InPrefix(t, c.teams, c'.teams);
    }
    if |r| >= 3 && HasUser(c, r[2]) {
      var u :| u in c.users && |u| == 6 && u[0] == r[2];
      InPrefix(u, c.users, c'.users);
    }
    if |r| >= 2 && HasProject(c, r[1]) {
      var p :| p in c.projects && |p| == 4 && p[0] == r[1];
      InPrefix(p, c.projects, c'.projects);
    }
    if |r| >= 1 && HasTopLevelTask(c, r[0]) {
      var q :| q in c.tasks && |q| == 9 && q[0] == r[0] && q[4] == Null;
      InPrefix(q, c.tasks, c'.tasks);
    }
    if |r| >= 2 && HasTag(c, r[1]) {
      var g :| g in c.tags && |g| == 3 && g[0] == r[1];
      InPrefix(g, c.tags, c'.tags);
    }
  }

  /** The rows c' adds to c, table by table. */
  ghost predicate NewRowsOk(c: Contents, c': Contents)
    requires Grows(c, c')
  {
    && (forall r :: r in c'.teams[|c.teams|..] ==> TeamRowOk(c', r))
    && (forall r :: r in c'.memberships[|c.memberships|..] ==> MembershipRowOk(c', r))
    && (forall r :: r in c'.projects[|c.projects|..] ==> ProjectRowOk(c', r))
    && (forall r :: r in c'.sections[|c.sections|..] ==> SectionRowOk(c', r))
    && (forall r :: r in c'.tasks[|c.tasks|..] ==> TaskRowOk(c', r))
    && (forall r :: r in c'.taskTags[|c.taskTags|..] ==> LinkRowOk(c', r))
  }

  lemma OldOrNew(a: seq<Row>, b: seq<Row>, r: Row)
    requires a <= b && r in b
    ensures r in a || r in b[|a|..]
  {
    assert b == a + b[|a|..];
  }

  /** A store that grows by rows whose references are backed stays
      referentially sound. */
  lemma ReferentialGrows(c: Contents, c': Contents)
    requires Referential(c) && Grows(c, c') && NewRowsOk(c, c')
    ensures Referential(c')
  {
    forall r | r in c'.tasks
      ensures TaskRowOk(c', r)
    {
      OldOrNew(c.tasks, c'.tasks, r);
      if r in c.tasks {
        TaskRowGrows(c, c', r);
      }
    }
    forall r | r in c'.teams
      ensures TeamRowOk(c', r)
    {
      OldOrNew(c.teams, c'.teams, r);
      OtherRowsGrow(c, c', r);
    }
    forall r | r in c'.memberships
      ensures MembershipRowOk(c', r)
    {
      OldOrNew(c.memberships, c'.memberships, r);
      OtherRowsGrow(c, c', r);
    }
    forall r | r in c'.projects
      ensures ProjectRowOk(c', r)
    {
      OldOrNew(c.projects, c'.projects, r);
      OtherRowsGrow(c, c', r);
    }
    forall r | r in c'.sections
      ensures SectionRowOk(c', r)
    {
      OldOrNew(c.sections, c'.sections, r);
      OtherRowsGrow(c, c', r);
    }
    forall r | r in c'.taskTags
      ensures LinkRowOk(c', r)
    {
      OldOrNew(c.taskTags, c'.taskTags, r);
      OtherRowsGrow(c, c', r);
    }
  }

  // ---------------------------------------------------------------------
  // One project

  /** What the task generator guarantees of a project's task list: every
      task's fields come from the context, and every subtask follows its
      top-level parent. */
  ghost predicate TasksBacked(ctx: Tasks.TaskContext, ts: seq<Tasks.Task>) {
    && (forall k :: 0 <= k < |ts| ==> Tasks.TaskFieldsOk(ctx, ts[k]))
    && (forall k :: 0 <= k < |ts| && ts[k].parentTaskId.Some? ==> exists j :: Tasks.ParentAt(ts, j, k))
  }

  lemma GeneratedTasksBacked(ctx: Tasks.TaskContext, draws: seq<Tasks.TaskDraw>)
    requires |draws| == Tasks.TOP_LEVEL_COUNT && Tasks.DrawsOk(ctx, draws)
    ensures TasksBacked(ctx, Tasks.TasksUpTo(ctx, draws, Tasks.TOP_LEVEL_COUNT))
  {
    var ts := Tasks.TasksUpTo(ctx, draws, Tasks.TOP_LEVEL_COUNT);
    Tasks.AllTasksFieldsOk(ctx, draws, Tasks.TOP_LEVEL_COUNT);
    forall k | 0 <= k < |ts| && ts[k].parentTaskId.Some?
      ensures exists j :: Tasks.ParentAt(ts, j, k)
    {
      Tasks.SubtasksFollowParent(ctx, draws, Tasks.TOP_LEVEL_COUNT, k);
    }
  }

  /** What the task generator guarantees of a project's tag links: each
      names a listed top-level task and a tag of the context. */
  ghost predicate LinksBacked(ctx: Tasks.TaskContext, ts: seq<Tasks.Task>, ls: seq<Tasks.TagLink>) {
    forall l :: l in ls ==>
      l.tagId in ctx.tagIds && exists t :: t in ts && t.taskId == l.taskId && t.parentTaskId.None?
  }

  lemma TaskStaffed(c': Contents, ctx: Tasks.TaskContext, t: Tasks.Task, teamId: string, prow: Row)
    requires t.projectId == ctx.projectId && t.assigneeId in ctx.userIds
    requires prow in c'.projects && |prow| == 4 && prow[0] == Text(ctx.projectId) && prow[1] == Text(teamId)
    requires forall u :: u in ctx.userIds ==> HasMember(c', Text(teamId), Text(u))
    ensures StaffedBy(c', TaskRow(t)[1], TaskRow(t)[3])
  {
    assert HasMember(c', prow[1], Text(t.assigneeId));
  }

  lemma TaskInSection(c': Contents, ctx: Tasks.TaskContext, t: Tasks.Task)
    requires t.projectId == ctx.projectId && t.sectionId in ctx.sectionIds
    requires forall s :: s in ctx.sectionIds ==> HasSection(c', Text(s), Text(ctx.projectId))
    ensures HasSection(c', TaskRow(t)[2], TaskRow(t)[1])
  {
  }

  lemma TaskParentListed(c': Contents, ts: seq<Tasks.Task>, j: nat, k: nat)
    requires Tasks.ParentAt(ts, j, k)
    requires TaskRow(ts[j]) in c'.tasks
    ensures HasParent(c', TaskRow(ts[k])[4], TaskRow(ts[k])[1], TaskRow(ts[k])[2])
  {
    var q := TaskRow(ts[j]);
    var r := TaskRow(ts[k]);
    assert IsParentRow(q, r[4], r[1], r[2]);
    ParentListedIn(c'.tasks, q, r[4], r[1], r[2]);
  }

  /** The row of one task: it names the project, an assignee of the team,
      a section of the project and, for a subtask, its top-level parent in
      the same project and section. */
  lemma TaskRowOkAt(c': Contents, ctx: Tasks.TaskContext, ts: seq<Tasks.Task>, k: nat, teamId: string, prow: Row)
    requires k < |ts| && Tasks.TaskFieldsOk(ctx, ts[k])
    requires ts[k].parentTaskId.Some? ==> exists j :: Tasks.ParentAt(ts, j, k)
    requires forall m :: 0 <= m < |ts| ==> TaskRow(ts[m]) in c'.tasks
    requires prow in c'.projects && |prow| == 4 && prow[0] == Text(ctx.projectId) && prow[1] == Text(teamId)
    requires forall u :: u in ctx.userIds ==> HasMember(c', Text(teamId), Text(u))
    requires forall s :: s in ctx.sectionIds ==> HasSection(c', Text(s), Text(ctx.projectId))
    ensures TaskRowOk(c', TaskRow(ts[k]))
  {
    TaskStaffed(c', ctx, ts[k], teamId, prow);
    TaskInSection(c', ctx, ts[k]);
    if ts[k].parentTaskId.Some? {
      var j: nat :| Tasks.ParentAt(ts, j, k);
      TaskParentListed(c', ts, j, k);
    }
  }

  lemma TaskRowsListed(pre: seq<Row>, ts: seq<Tasks.Task>)
    ensures forall m :: 0 <= m < |ts| ==> TaskRow(ts[m]) in pre + TaskRows(ts)
  {
    forall m | 0 <= m < |ts|
      ensures TaskRow(ts[m]) in pre + TaskRows(ts)
    {
      assert (pre + TaskRows(ts))[|pre| + m] == TaskRow(ts[m]);
    }
  }

  lemma TaskRowsOk(c': Contents, ctx: Tasks.TaskContext, ts: seq<Tasks.Task>, teamId: string, prow: Row)
    requires TasksBacked(ctx, ts)
    requires forall m :: 0 <= m < |ts| ==> TaskRow(ts[m]) in c'.tasks
    requires prow in c'.projects && |prow| == 4 && prow[0] == Text(ctx.projectId) && prow[1] == Text(teamId)
    requires forall u :: u in ctx.userIds ==> HasMember(c', Text(teamId), Text(u))
    requires forall s :: s in ctx.sectionIds ==> HasSection(c', Text(s), Text(ctx.projectId))
    ensures forall r :: r in TaskRows(ts) ==> TaskRowOk(c', r)
  {
    forall r | r in TaskRows(ts)
      ensures TaskRowOk(c', r)
    {
      var k :| 0 <= k < |ts| && TaskRows(ts)[k] == r;
      TaskRowOkAt(c', ctx, ts, k, teamId, prow);
    }
  }

  lemma LinkRowOkAt(c': Contents, t: Tasks.Task, l: Tasks.TagLink)
    requires t.taskId == l.taskId && t.parentTaskId.None?
    requires TaskRow(t) in c'.tasks && HasTag(c', Text(l.tagId))
    ensures LinkRowOk(c', [Text(l.taskId), Text(l.tagId)])
  {
    var q := TaskRow(t);
    assert |q| == 9 && q[0] == Text(l.taskId) && q[4] == Null;
  }

  /** The rows of a project's tag links: each names a top-level task row
      and a tag. */
  lemma LinkRowsOk(c': Contents, ctx: Tasks.TaskContext, ts: seq<Tasks.Task>, ls: seq<Tasks.TagLink>)
    requires LinksBacked(ctx, ts, ls)
    requires forall m :: 0 <= m < |ts| ==> TaskRow(ts[m]) in c'.tasks
    requires forall g :: g in ctx.tagIds ==> HasTag(c', Text(g))
    ensures forall r :: r in LinkRows(ls) ==> LinkRowOk(c', r)
  {
    forall r | r in LinkRows(ls)
      ensures LinkRowOk(c', r)
    {
      var k :| 0 <= k < |ls| && LinkRows(ls)[k] == r;
      var l := ls[k];
      assert l in ls;
      var t :| t in ts && t.taskId == l.taskId && t.parentTaskId.None?;
      var i :| 0 <= i < |ts| && ts[i] == t;
      LinkRowOkAt(c', ts[i], l);
    }
  }

  /** The rows of a project's sections name the project. */
  lemma SectionRowsOk(c': Contents, projectId: string, sectionIds: seq<string>, prow: Row)
    requires |sectionIds| == |SECTION_NAMES|
    requires prow in c'.projects && |prow| == 4 && prow[0] == Text(projectId)
    requires forall r :: r in SectionRows(projectId, sectionIds) ==> r in c'.sections
    ensures forall r :: r in SectionRows(projectId, sectionIds) ==> SectionRowOk(c', r)
    ensures forall s :: s in sectionIds ==> HasSection(c', Text(s), Text(projectId))
  {
    var rows := SectionRows(projectId, sectionIds);
    forall s | s in sectionIds
      ensures HasSection(c', Text(s), Text(projectId))
    {
      var i :| 0 <= i < |sectionIds| && sectionIds[i] == s;
      assert rows[i] in rows;
    }
  }

  /** What a team's rows guarantee its projects. */
  ghost predicate TeamContext(c: Contents, teamId: string, members: seq<string>, tagIds: seq<string>) {
    && HasTeam(c, Text(teamId))
    && (forall u :: u in members ==> HasMember(c, Text(teamId), Text(u)))
    && (forall g :: g in tagIds ==> HasTag(c, Text(g)))
  }

  lemma TeamContextGrows(c: Contents, c': Contents, teamId: string, members: seq<string>, tagIds: seq<string>)
    requires Grows(c, c') && TeamContext(c, teamId, members, tagIds)
    ensures TeamContext(c', teamId, members, tagIds)
  {
    var t :| t in c.teams && |t| == 4 && t[0] == Text(teamId);
    InPrefix(t, c.teams, c'.teams);
    forall u | u in members
      ensures HasMember(c', Text(teamId), Text(u))
    {
      var m :| m in c.memberships && |m| == 3 && m[1] == Text(teamId) && m[2] == Text(u);
      InPrefix(m, c.memberships, c'.memberships);
    }
    forall g | g in tagIds
      ensures HasTag(c', Text(g))
    {
      var r :| r in c.tags && |r| == 3 && r[0] == Text(g);
      InPrefix(r, c.tags, c'.tags);
    }
  }

  /** The project rows a store gains, as tables that grow. */
  lemma ProjectRowsAppended(c: Contents, c': Contents, ctx: Tasks.TaskContext, prow: Row,
                            ts: seq<Tasks.Task>, ls: seq<Tasks.TagLink>)
    requires |ctx.sectionIds| == |SECTION_NAMES|
    requires c' == c.(projects := c.projects + [prow],
                      sections := c.sections + SectionRows(ctx.projectId, ctx.sectionIds),
                      tasks := c.tasks + TaskRows(ts),
                      taskTags := c.taskTags + LinkRows(ls))
    ensures Grows(c, c')
    ensures c'.teams[|c.teams|..] == [] && c'.memberships[|c.memberships|..] == []
    ensures c'.projects[|c.projects|..] == [prow]
    ensures c'.sections[|c.sections|..] == SectionRows(ctx.projectId, ctx.sectionIds)
    ensures c'.tasks[|c.tasks|..] == TaskRows(ts)
    ensures c'.taskTags[|c.taskTags|..] == LinkRows(ls)
    ensures prow in c'.projects
    ensures forall r :: r in SectionRows(ctx.projectId, ctx.sectionIds) ==> r in c'.sections
    ensures forall m :: 0 <= m < |ts| ==> TaskRow(ts[m]) in c'.tasks
  {
    TaskRowsListed(c.tasks, ts);
  }

  lemma NewProjectRowsOk(c: Contents, c': Contents, prow: Row, srows: seq<Row>, trows: seq<Row>, lrows: seq<Row>)
    requires Grows(c, c')
    requires c'.teams[|c.teams|..] == [] && c'.memberships[|c.memberships|..] == []
    requires c'.projects[|c.projects|..] == [prow] && ProjectRowOk(c', prow)
    requires c'.sections[|c.sections|..] == srows && forall r :: r in srows ==> SectionRowOk(c', r)
    requires c'.tasks[|c.tasks|..] == trows && forall r :: r in trows ==> TaskRowOk(c', r)
    requires c'.taskTags[|c.taskTags|..] == lrows && forall r :: r in lrows ==> LinkRowOk(c', r)
    ensures NewRowsOk(c, c')
  {
  }

  /** Appending a project, its sections, backed tasks and backed links to
      a sound store whose team context holds keeps it sound. */
  lemma ProjectRowsReferential(c: Contents, c': Contents, ctx: Tasks.TaskContext, teamId: string, prow: Row,
                               ts: seq<Tasks.Task>, ls: seq<Tasks.TagLink>)
    requires |ctx.sectionIds| == |SECTION_NAMES|
    requires |prow| == 4 && prow[0] == Text(ctx.projectId) && prow[1] == Text(teamId)
    requires TasksBacked(ctx, ts) && LinksBacked(ctx, ts, ls)
    requires Grows(c, c')
    requires c'.teams[|c.teams|..] == [] && c'.memberships[|c.memberships|..] == []
    requires c'.projects[|c.projects|..] == [prow]
    requires c'.sections[|c.sections|..] == SectionRows(ctx.projectId, ctx.sectionIds)
    requires c'.tasks[|c.tasks|..] == TaskRows(ts)
    requires c'.taskTags[|c.taskTags|..] == LinkRows(ls)
    requires prow in c'.projects
    requires forall r :: r in SectionRows(ctx.projectId, ctx.sectionIds) ==> r in c'.sections
    requires forall m :: 0 <= m < |ts| ==> TaskRow(ts[m]) in c'.tasks
    requires Referential(c) && TeamContext(c, teamId, ctx.userIds, ctx.tagIds)
    ensures Referential(c')
  {
    TeamContextGrows(c, c', teamId, ctx.userIds, ctx.tagIds);
    SectionRowsOk(c', ctx.projectId, ctx.sectionIds, prow);
    TaskRowsOk(c', ctx, ts, teamId, prow);
    LinkRowsOk(c', ctx, ts, ls);
    NewProjectRowsOk(c, c', prow, SectionRows(ctx.projectId, ctx.sectionIds), TaskRows(ts), LinkRows(ls));
    ReferentialGrows(c, c');
  }

  /** A project keeps the store referentially sound. */
  lemma ProjectStepReferential(c: Contents, teamId: string, teamName: string, members: seq<string>,
                               tagIds: seq<string>, pr: Projects.Project, pd: ProjectRunDraws)
    requires ProjectRunShape(pd)
    requires Tasks.DrawsOk(ProjectContext(pr.projectId, teamName, members, tagIds, pd), pd.tasks)
    requires Referential(c) && TeamContext(c, teamId, members, tagIds)
    ensures Grows(c, ProjectStep(c, teamId, teamName, members, tagIds, pr, pd))
    ensures Referential(ProjectStep(c, teamId, teamName, members, tagIds, pr, pd))
  {
    var ctx := ProjectContext(pr.projectId, teamName, members, tagIds, pd);
    var ts := Tasks.TasksUpTo(ctx, pd.tasks, Tasks.TOP_LEVEL_COUNT);
    var ls := Tasks.LinksUpTo(pd.tasks, Tasks.TOP_LEVEL_COUNT);
    Report.ProjectStepRows(c, teamId, teamName, members, tagIds, pr, pd);
    GeneratedTasksBacked(ctx, pd.tasks);
    Tasks.LinksNameListedTasks(ctx, pd.tasks, Tasks.TOP_LEVEL_COUNT);
    var c' := ProjectStep(c, teamId, teamName, members, tagIds, pr, pd);
    ProjectRowsAppended(c, c', ctx, ProjectRow(pr, teamId, teamName), ts, ls);
    ProjectRowsReferential(c, c', ctx, teamId, ProjectRow(pr, teamId, teamName), ts, ls);
  }

  // ---------------------------------------------------------------------
  // A team, the base rows and the whole run

  lemma GrowsTransitive(a: Contents, b: Contents, c: Contents)
    requires Grows(a, b) && Grows(b, c)
    ensures Grows(a, c)
  {
  }

  lemma {:induction false} ProjectsUpToReferential(c: Contents, teamId: string, teamName: string, members: seq<string>,
                                                   tagIds: seq<string>, ps: seq<Projects.Project>,
                                                   pds: seq<ProjectRunDraws>, k: nat)
    requires k <= |ps| && |ps| == |pds|
    requires forall j :: 0 <= j < |pds| ==> ProjectRunShape(pds[j])
    requires forall j :: 0 <= j < |pds| ==>
      Tasks.DrawsOk(ProjectContext(ps[j].projectId, teamName, members, tagIds, pds[j]), pds[j].tasks)
    requires Referential(c) && TeamContext(c, teamId, members, tagIds)
    ensures Grows(c, ProjectsUpTo(c, teamId, teamName, members, tagIds, ps, pds, k))
    ensures Referential(ProjectsUpTo(c, teamId, teamName, members, tagIds, ps, pds, k))
  {
    if k > 0 {
      var j := k - 1;
      ProjectsUpToReferential(c, teamId, teamName, members, tagIds, ps, pds, j);
      ProjectsUpToUnfold(c, teamId, teamName, members, tagIds, ps, pds, j);
      ProjectChainStep(c, ProjectsUpTo(c, teamId, teamName, members, tagIds, ps, pds, j),
                       teamId, teamName, members, tagIds, ps[j], pds[j]);
    }
  }

  /** A project appended to a sound store grown from c. */
  lemma ProjectChainStep(c: Contents, prev: Contents, teamId: string, teamName: string, members: seq<string>,
                         tagIds: seq<string>, pr: Projects.Project, pd: ProjectRunDraws)
    requires ProjectRunShape(pd)
    requires Tasks.DrawsOk(ProjectContext(pr.projectId, teamName, members, tagIds, pd), pd.tasks)
    requires TeamContext(c, teamId, members, tagIds)
    requires Grows(c, prev) && Referential(prev)
    ensures Grows(c, ProjectStep(prev, teamId, teamName, members, tagIds, pr, pd))
    ensures Referential(ProjectStep(prev, teamId, teamName, members, tagIds, pr, pd))
  {
    TeamContextGrows(c, prev, teamId, members, tagIds);
    ProjectStepReferential(prev, teamId, teamName, members, tagIds, pr, pd);
    GrowsTransitive(c, prev, ProjectStep(prev, teamId, teamName, members, tagIds, pr, pd));
  }

  /** What the organization, the tags and the users guarantee a team. */
  ghost predicate RunContext(c: Contents, orgId: string, userIds: seq<string>, tagIds: seq<string>) {
    && HasOrg(c, Text(orgId))
    && (forall u :: u in userIds ==> HasUser(c, Text(u)))
    && (forall g :: g in tagIds ==> HasTag(c, Text(g)))
  }

  lemma RunContextGrows(c: Contents, c': Contents, orgId: string, userIds: seq<string>, tagIds: seq<string>)
    requires Grows(c, c') && RunContext(c, orgId, userIds, tagIds)
    ensures RunContext(c', orgId, userIds, tagIds)
  {
    var o :| o in c.orgs && |o| == 3 && o[0] == Text(orgId);
    InPrefix(o, c.orgs, c'.orgs);
    forall u | u in userIds
      ensures HasUser(c', Text(u))
    {
      var r :| r in c.users && |r| == 6 && r[0] == Text(u);
      InPrefix(r, c.users, c'.users);
    }
    forall g | g in tagIds
      ensures HasTag(c', Text(g))
    {
      var r :| r in c.tags && |r| == 3 && r[0] == Text(g);
      InPrefix(r, c.tags, c'.tags);
    }
  }

  lemma TeamHeadRows(c: Contents, t: nat, orgId: string, td: TeamDraws)
    requires TeamShape(t, td)
    ensures var c' := TeamHead(c, t, orgId, td);
      && c' == c.(teams := c.teams + [TeamRow(td.teamId, orgId, t)],
                  memberships := c.memberships + MembershipRows(td.teamId, td.members, td.membershipIds))
      && Grows(c, c')
      && c'.teams[|c.teams|..] == [TeamRow(td.teamId, orgId, t)]
      && c'.memberships[|c.memberships|..] == MembershipRows(td.teamId, td.members, td.membershipIds)
      && c'.projects[|c.projects|..] == [] && c'.sections[|c.sections|..] == []
      && c'.tasks[|c.tasks|..] == [] && c'.taskTags[|c.taskTags|..] == []
  {
  }

  lemma MembersListed(c': Contents, teamId: string, members: seq<string>, membershipIds: seq<string>)
    requires |membershipIds| == |members|
    requires forall r :: r in MembershipRows(teamId, members, membershipIds) ==> r in c'.memberships
    ensures forall u :: u in members ==> HasMember(c', Text(teamId), Text(u))
  {
    var mrows := MembershipRows(teamId, members, membershipIds);
    forall u | u in members
      ensures HasMember(c', Text(teamId), Text(u))
    {
      var k :| 0 <= k < |members| && members[k] == u;
      assert mrows[k] in mrows;
    }
  }

  lemma MembershipRowsOk(c': Contents, teamId: string, members: seq<string>, membershipIds: seq<string>,
                         userIds: seq<string>)
    requires |membershipIds| == |members|
    requires HasTeam(c', Text(teamId))
    requires forall k :: 0 <= k < |members| ==> members[k] in userIds
    requires forall u :: u in userIds ==> HasUser(c', Text(u))
    ensures forall r :: r in MembershipRows(teamId, members, membershipIds) ==> MembershipRowOk(c', r)
  {
    var mrows := MembershipRows(teamId, members, membershipIds);
    forall r | r in mrows
      ensures MembershipRowOk(c', r)
    {
      var k :| 0 <= k < |mrows| && mrows[k] == r;
      assert members[k] in userIds;
    }
  }

  lemma NewTeamRowsOk(c: Contents, c': Contents, trow: Row, mrows: seq<Row>)
    requires Grows(c, c')
    requires c'.teams[|c.teams|..] == [trow] && TeamRowOk(c', trow)
    requires c'.memberships[|c.memberships|..] == mrows && forall r :: r in mrows ==> MembershipRowOk(c', r)
    requires c'.projects[|c.projects|..] == [] && c'.sections[|c.sections|..] == []
    requires c'.tasks[|c.tasks|..] == [] && c'.taskTags[|c.taskTags|..] == []
    ensures NewRowsOk(c, c')
  {
  }

  lemma TeamRowsReferential(c: Contents, c': Contents, trow: Row, orgId: string, teamId: string,
                            members: seq<string>, membershipIds: seq<string>, userIds: seq<string>, tagIds: seq<string>)
    requires |membershipIds| == |members|
    requires |trow| == 4 && trow[0] == Text(teamId) && trow[1] == Text(orgId)
    requires forall k :: 0 <= k < |members| ==> members[k] in userIds
    requires Grows(c, c')
    requires c'.teams[|c.teams|..] == [trow]
    requires c'.memberships[|c.memberships|..] == MembershipRows(teamId, members, membershipIds)
    requires c'.projects[|c.projects|..] == [] && c'.sections[|c.sections|..] == []
    requires c'.tasks[|c.tasks|..] == [] && c'.taskTags[|c.taskTags|..] == []
    requires trow in c'.teams
    requires forall r :: r in MembershipRows(teamId, members, membershipIds) ==> r in c'.memberships
    requires Referential(c) && RunContext(c, orgId, userIds, tagIds)
    ensures Referential(c') && TeamContext(c', teamId, members, tagIds)
  {
    RunContextGrows(c, c', orgId, userIds, tagIds);
    MembersListed(c', teamId, members, membershipIds);
    MembershipRowsOk(c', teamId, members, membershipIds, userIds);
    NewTeamRowsOk(c, c', trow, MembershipRows(teamId, members, membershipIds));
    ReferentialGrows(c, c');
  }

  /** A team's row names the organization and its memberships name the
      team and sampled users; afterwards the team's projects find their
      team, its members and the tags. */
  lemma TeamHeadReferential(c: Contents, t: nat, orgId: string, td: TeamDraws, userIds: seq<string>, tagIds: seq<string>)
    requires TeamShape(t, td)
    requires forall k :: 0 <= k < |td.members| ==> td.members[k] in userIds
    requires Referential(c) && RunContext(c, orgId, userIds, tagIds)
    ensures Grows(c, TeamHead(c, t, orgId, td)) && Referential(TeamHead(c, t, orgId, td))
    ensures TeamContext(TeamHead(c, t, orgId, td), td.teamId, td.members, tagIds)
  {
    var c' := TeamHead(c, t, orgId, td);
    TeamHeadRows(c, t, orgId, td);
    assert TeamRow(td.teamId, orgId, t) in c'.teams;
    assert forall r :: r in MembershipRows(td.teamId, td.members, td.membershipIds) ==> r in c'.memberships;
    TeamRowsReferential(c, c', TeamRow(td.teamId, orgId, t), orgId, td.teamId, td.members, td.membershipIds,
                        userIds, tagIds);
  }

  /** With anyone to assign, every project of the team has valid task
      draws for its own id. */
  lemma TeamProjectDrawsOk(t: nat, td: TeamDraws, userIds: seq<string>, tagIds: seq<string>)
    requires TeamDrawsOk(t, td, userIds, tagIds) && |userIds| > 0
    ensures var ps := TeamProjects(t, td);
      forall j :: 0 <= j < |td.perProject| ==>
        Tasks.DrawsOk(ProjectContext(ps[j].projectId, TEAM_DEFS[t].0, td.members, tagIds, td.perProject[j]),
                      td.perProject[j].tasks)
  {
    assert |td.members| > 0;
  }

  lemma TeamStepReferential(c: Contents, t: nat, orgId: string, tagIds: seq<string>, td: TeamDraws,
                            userIds: seq<string>)
    requires TeamDrawsOk(t, td, userIds, tagIds) && |userIds| > 0
    requires Referential(c) && RunContext(c, orgId, userIds, tagIds)
    ensures Grows(c, TeamStep(c, t, orgId, tagIds, td)) && Referential(TeamStep(c, t, orgId, tagIds, td))
  {
    var h := TeamHead(c, t, orgId, td);
    TeamHeadReferential(c, t, orgId, td, userIds, tagIds);
    var ps := TeamProjects(t, td);
    TeamProjectDrawsOk(t, td, userIds, tagIds);
    ProjectsUpToReferential(h, td.teamId, TEAM_DEFS[t].0, td.members, tagIds, ps, td.perProject, |ps|);
    GrowsTransitive(c, h, TeamStep(c, t, orgId, tagIds, td));
  }

  lemma BaseRows(d: RunDraws)
    requires RunShape(d)
    ensures var c := BaseContents(d);
      && c.orgs == [OrgRow(d.orgId)] && c.tags == TagRows(d.tagIds) && c.users == UserRows(UsersOf(d.users))
      && c.teams == [] && c.memberships == [] && c.projects == [] && c.sections == []
      && c.tasks == [] && c.taskTags == [] && c.comments == []
  {
  }

  lemma TagsListed(c: Contents, tagIds: seq<string>)
    requires |tagIds| == |TAG_DEFS| && c.tags == TagRows(tagIds)
    ensures forall g :: g in tagIds ==> HasTag(c, Text(g))
  {
    forall g | g in tagIds
      ensures HasTag(c, Text(g))
    {
      var k :| 0 <= k < |tagIds| && tagIds[k] == g;
      assert TagRows(tagIds)[k] in c.tags;
    }
  }

  lemma UsersListed(c: Contents, d: RunDraws)
    requires forall i :: 0 <= i < |d.users| ==> Users.UserDrawOk(d.users[i])
    requires c.users == UserRows(UsersOf(d.users))
    ensures forall u :: u in DrawnUserIds(d) ==> HasUser(c, Text(u))
  {
    var urows := UserRows(UsersOf(d.users));
    forall u | u in DrawnUserIds(d)
      ensures HasUser(c, Text(u))
    {
      var k :| 0 <= k < |d.users| && DrawnUserIds(d)[k] == u;
      Users.MakeUserFields(d.users[k]);
      assert urows[k] in c.users;
    }
  }

  /** The organization, tag and user rows refer to nothing; they are what
      every later row refers to. */
  lemma BaseReferential(userCount: nat, d: RunDraws)
    requires RunDrawsOk(userCount, d)
    ensures Referential(BaseContents(d))
    ensures RunContext(BaseContents(d), d.orgId, DrawnUserIds(d), d.tagIds)
  {
    var c := BaseContents(d);
    BaseRows(d);
    assert OrgRow(d.orgId) in c.orgs;
    TagsListed(c, d.tagIds);
    UsersListed(c, d);
  }

  lemma {:induction false} TeamsUpToReferential(userCount: nat, d: RunDraws, k: nat)
    requires RunDrawsOk(userCount, d) && userCount > 0 && k <= |TEAM_DEFS|
    ensures Grows(BaseContents(d), TeamsUpTo(d, k)) && Referential(TeamsUpTo(d, k))
  {
    if k == 0 {
      BaseReferential(userCount, d);
    } else {
      var j := k - 1;
      TeamsUpToReferential(userCount, d, j);
      TeamsUpToStepReferential(userCount, d, j, k);
    }
  }

  lemma TeamsUpToStepReferential(userCount: nat, d: RunDraws, j: nat, k: nat)
    requires RunDrawsOk(userCount, d) && userCount > 0 && k == j + 1 && k <= |TEAM_DEFS|
    requires Grows(BaseContents(d), TeamsUpTo(d, j)) && Referential(TeamsUpTo(d, j))
    ensures Grows(BaseContents(d), TeamsUpTo(d, k)) && Referential(TeamsUpTo(d, k))
  {
    var prev := TeamsUpTo(d, j);
    BaseReferential(userCount, d);
    RunContextGrows(BaseContents(d), prev, d.orgId, DrawnUserIds(d), d.tagIds);
    assert TeamDrawsOk(j, d.teams[j], DrawnUserIds(d), d.tagIds);
    TeamStepReferential(prev, j, d.orgId, d.tagIds, d.teams[j], DrawnUserIds(d));
    GrowsTransitive(BaseContents(d), prev, TeamsUpTo(d, k));
  }

  /** The store a complete run leaves is referentially sound: no team,
      membership, project, section, task or tag link refers to a row that
      is not there. */
  lemma RunIsReferential(userCount: nat, d: RunDraws)
    requires RunDrawsOk(userCount, d) && userCount > 0
    ensures Referential(FinalContents(d))
  {
    TeamsUpToReferential(userCount, d, |TEAM_DEFS|);
  }
}
