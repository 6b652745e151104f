/** What the closing audit reports after a complete run (src/main.py,
    _audit_and_report over the store run leaves): one organization, four
    tags, every generated user, three teams of min(20, n) members, six to
    eleven projects with four sections and twenty top-level tasks each,
    at most three subtasks and one or two tag links per top-level task,
    and no comments. */
module Report {
  import opened Common
  import opened Store
  import opened Audit
  import opened Orchestrator
  import Projects
  import Tasks

  /** A parent-less task is reported under "tasks", one with a parent
      under "subtasks"; rows of task records have full width. */
  lemma {:induction false} TaskRowsParents(ts: seq<Tasks.Task>)
    ensures NullParents(TaskRows(ts)) == |Tasks.TopLevel(ts)|
    ensures SetParents(TaskRows(ts)) == |ts| - |Tasks.TopLevel(ts)|
    ensures forall k :: 0 <= k < |ts| ==> |TaskRows(ts)[k]| == TASK_ARITY
    decreases |ts|
  {
    if ts != [] {
      var n := |ts|;
      assert TaskRows(ts) == TaskRows(ts[..n - 1]) + [TaskRow(ts[n - 1])];
      ParentCountsAppend(TaskRows(ts[..n - 1]), [TaskRow(ts[n - 1])]);
      assert [TaskRow(ts[n - 1])][..0] == [];
      TaskRowsParents(ts[..n - 1]);
    }
  }

  /** The project-dependent counts of a store holding p projects. */
  ghost predicate ProjectTally(c: Contents, p: nat) {
    && |c.projects| == p
    && |c.sections| == 4 * p
    && NullParents(c.tasks) == 20 * p
    && SetParents(c.tasks) <= 60 * p
    && 20 * p <= |c.taskTags| <= 40 * p
    && forall k :: 0 <= k < |c.tasks| ==> |c.tasks[k]| == TASK_ARITY
  }

  /** The tables a project does not write. */
  ghost predicate SameOutsideProjects(c: Contents, c': Contents) {
    c'.orgs == c.orgs && c'.tags == c.tags && c'.users == c.users && c'.teams == c.teams
    && c'.memberships == c.memberships && c'.comments == c.comments
  }

  lemma TaskTableGrows(c: Contents, rows: seq<Row>)
    requires forall k :: 0 <= k < |c.tasks| ==> |c.tasks[k]| == TASK_ARITY
    requires forall k :: 0 <= k < |rows| ==> |rows[k]| == TASK_ARITY
    ensures NullParents(c.tasks + rows) == NullParents(c.tasks) + NullParents(rows)
    ensures SetParents(c.tasks + rows) == SetParents(c.tasks) + SetParents(rows)
    ensures forall k :: 0 <= k < |c.tasks + rows| ==> |(c.tasks + rows)[k]| == TASK_ARITY
  {
    ParentCountsAppend(c.tasks, rows);
  }

  /** The rows one project appends, table by table. */
  lemma ProjectStepRows(c: Contents, teamId: string, teamName: string, members: seq<string>,
                        tagIds: seq<string>, pr: Projects.Project, pd: ProjectRunDraws)
    requires ProjectRunShape(pd)
    ensures var ctx := ProjectContext(pr.projectId, teamName, members, tagIds, pd);
      var c' := ProjectStep(c, teamId, teamName, members, tagIds, pr, pd);
      && c'.projects == c.projects + [ProjectRow(pr, teamId, teamName)]
      && c'.sections == c.sections + SectionRows(pr.projectId, pd.sectionIds)
      && c'.tasks == c.tasks + TaskRows(Tasks.TasksUpTo(ctx, pd.tasks, Tasks.TOP_LEVEL_COUNT))
      && c'.taskTags == c.taskTags + LinkRows(Tasks.LinksUpTo(pd.tasks, Tasks.TOP_LEVEL_COUNT))
      && SameOutsideProjects(c, c')
  {
  }

  /** One project adds one project row, four sections, twenty top-level
      tasks with at most sixty subtasks and twenty to forty tag links. */
  lemma ProjectStepTally(c: Contents, teamId: string, teamName: string, members: seq<string>,
                         tagIds: seq<string>, pr: Projects.Project, pd: ProjectRunDraws, p: nat)
    requires ProjectRunShape(pd)
    requires Tasks.DrawsOk(ProjectContext(pr.projectId, teamName, members, tagIds, pd), pd.tasks)
    requires ProjectTally(c, p)
    ensures ProjectTally(ProjectStep(c, teamId, teamName, members, tagIds, pr, pd), p + 1)
    ensures SameOutsideProjects(c, ProjectStep(c, teamId, teamName, members, tagIds, pr, pd))
  {
    var ctx := ProjectContext(pr.projectId, teamName, members, tagIds, pd);
    var ts := Tasks.TasksUpTo(ctx, pd.tasks, Tasks.TOP_LEVEL_COUNT);
    Tasks.Counts(ctx, pd.tasks, Tasks.TOP_LEVEL_COUNT);
    TaskRowsParents(ts);
    ProjectStepRows(c, teamId, teamName, members, tagIds, pr, pd);
    TaskTableGrows(c, TaskRows(ts));
  }

  lemma {:induction false} ProjectsUpToTally(c: Contents, teamId: string, teamName: string, members: seq<string>,
                                             tagIds: seq<string>, ps: seq<Projects.Project>,
                                             pds: seq<ProjectRunDraws>, k: nat, p: nat)
    requires k <= |ps| && |ps| == |pds|
    requires forall j :: 0 <= j < |pds| ==> ProjectRunShape(pds[j])
    requires forall j :: 0 <= j < |pds| ==>
      Tasks.DrawsOk(ProjectContext(ps[j].projectId, teamName, members, tagIds, pds[j]), pds[j].tasks)
    requires ProjectTally(c, p)
    ensures ProjectTally(ProjectsUpTo(c, teamId, teamName, members, tagIds, ps, pds, k), p + k)
    ensures SameOutsideProjects(c, ProjectsUpTo(c, teamId, teamName, members, tagIds, ps, pds, k))
  {
    if k > 0 {
      var j := k - 1;
      ProjectsUpToTally(c, teamId, teamName, members, tagIds, ps, pds, j, p);
      ProjectsUpToUnfold(c, teamId, teamName, members, tagIds, ps, pds, j);
      ProjectStepTally(ProjectsUpTo(c, teamId, teamName, members, tagIds, ps, pds, j),
                       teamId, teamName, members, tagIds, ps[j], pds[j], p + j);
    }
  }

  /** The counts of a store after the organization, the tags, n users and
      `teams` teams with `members` memberships and p projects in all. */
  ghost predicate RunTally(c: Contents, n: nat, teams: nat, members: nat, p: nat) {
    && ProjectTally(c, p)
    && |c.orgs| == 1 && |c.tags| == |TAG_DEFS| && |c.users| == n && c.comments == []
    && |c.teams| == teams && |c.memberships| == members
  }

  /** One team adds its row, one membership per sampled user and its
      projects. */
  lemma TeamStepTally(c: Contents, t: nat, orgId: string, tagIds: seq<string>, td: TeamDraws,
                      userIds: seq<string>, n: nat, teams: nat, members: nat, p: nat)
    requires TeamDrawsOk(t, td, userIds, tagIds) && |userIds| > 0
    requires RunTally(c, n, teams, members, p)
    ensures RunTally(TeamStep(c, t, orgId, tagIds, td), n, teams + 1, members + |td.members|,
                     p + |TeamProjects(t, td)|)
  {
    var h := TeamHead(c, t, orgId, td);
    assert ProjectTally(h, p);
    var ps := TeamProjects(t, td);
    ProjectsUpToTally(h, td.teamId, TEAM_DEFS[t].0, td.members, tagIds, ps, td.perProject, |ps|, p);
  }

  /** The projects of the first k teams. */
  function ProjectsInRun(d: RunDraws, k: nat): nat
    requires RunShape(d) && k <= |d.teams|
  {
    if k == 0 then 0 else ProjectsInRun(d, k - 1) + |TeamProjects(k - 1, d.teams[k - 1])|
  }

  /** The sampled members of the first k teams. */
  function MembersInRun(d: RunDraws, k: nat): nat
    requires k <= |d.teams|
  {
    if k == 0 then 0 else MembersInRun(d, k - 1) + |d.teams[k - 1].members|
  }

  /** Before the teams: the organization, the tags and the users. */
  lemma BaseTally(d: RunDraws)
    requires RunShape(d)
    ensures RunTally(BaseContents(d), |d.users|, 0, 0, 0)
  {
  }

  lemma {:induction false} TeamsUpToTally(userCount: nat, d: RunDraws, k: nat)
    requires RunShape(d) && |d.users| == userCount && userCount > 0 && k <= |TEAM_DEFS|
    requires forall t :: 0 <= t < |TEAM_DEFS| ==> TeamDrawsOk(t, d.teams[t], DrawnUserIds(d), d.tagIds)
    ensures RunTally(TeamsUpTo(d, k), userCount, k, MembersInRun(d, k), ProjectsInRun(d, k))
  {
    if k == 0 {
      BaseTally(d);
    } else {
      TeamsUpToTally(userCount, d, k - 1);
      TeamsUpToStep(userCount, d, k);
    }
  }

  lemma TeamsUpToStep(userCount: nat, d: RunDraws, k: nat)
    requires RunShape(d) && |d.users| == userCount && userCount > 0 && 0 < k <= |TEAM_DEFS|
    requires TeamDrawsOk(k - 1, d.teams[k - 1], DrawnUserIds(d), d.tagIds)
    requires RunTally(TeamsUpTo(d, k - 1), userCount, k - 1, MembersInRun(d, k - 1), ProjectsInRun(d, k - 1))
    ensures RunTally(TeamsUpTo(d, k), userCount, k, MembersInRun(d, k), ProjectsInRun(d, k))
  {
    TeamStepTally(TeamsUpTo(d, k - 1), k - 1, d.orgId, d.tagIds, d.teams[k - 1], DrawnUserIds(d),
                  userCount, k - 1, MembersInRun(d, k - 1), ProjectsInRun(d, k - 1));
  }

  /** Engineering runs its drawn two to five projects, Marketing two to
      four, Sales two: six to eleven in all. */
  lemma ProjectsInRunBounds(userCount: nat, d: RunDraws)
    requires RunDrawsOk(userCount, d)
    ensures |TeamProjects(0, d.teams[0])| == d.teams[0].projects.numProjects
    ensures 2 <= |TeamProjects(0, d.teams[0])| <= 5
    ensures 2 <= |TeamProjects(1, d.teams[1])| <= 4
    ensures |TeamProjects(2, d.teams[2])| == 2
    ensures 6 <= ProjectsInRun(d, |TEAM_DEFS|) <= 11
  {
    var t0, t1, t2 := d.teams[0], d.teams[1], d.teams[2];
    assert TeamShape(0, t0) && TeamShape(1, t1) && TeamShape(2, t2);
    Projects.LargePoolCounts(t0.teamId, t0.projects);
    Projects.LargePoolCounts(t1.teamId, t1.projects);
    Projects.TwoNamePoolsGiveTwoProjects(t2.teamId, "Sales", t2.projects);
    var n0 := |Projects.ProjectsFor(t0.teamId, "Engineering", t0.projects)|;
    var n1 := |Projects.ProjectsFor(t1.teamId, "Marketing", t1.projects)|;
    var n2 := |Projects.ProjectsFor(t2.teamId, "Sales", t2.projects)|;
    assert ProjectsInRun(d, 1) == n0;
    assert ProjectsInRun(d, 2) == n0 + n1;
    assert ProjectsInRun(d, 3) == n0 + n1 + n2;
  }

  /** Every team samples min(20, n) of the n users. */
  lemma MembersInRunTotal(userCount: nat, d: RunDraws)
    requires RunDrawsOk(userCount, d)
    ensures MembersInRun(d, |TEAM_DEFS|) == 3 * Min(TEAM_SAMPLE_CAP, userCount)
  {
    var ids := DrawnUserIds(d);
    assert TeamDrawsOk(0, d.teams[0], ids, d.tagIds);
    assert TeamDrawsOk(1, d.teams[1], ids, d.tagIds);
    assert TeamDrawsOk(2, d.teams[2], ids, d.tagIds);
    assert MembersInRun(d, 1) == |d.teams[0].members|;
    assert MembersInRun(d, 2) == |d.teams[0].members| + |d.teams[1].members|;
  }

  /** The audit of a store reads its tables' sizes off the contents. */
  lemma AuditOfContents(c: Contents)
    ensures Audit.Audit(TablesOf(c)) == Some(Summary(
      |c.orgs|, |c.users|, |c.teams|, |c.memberships|, |c.projects|, |c.sections|,
      NullParents(c.tasks), SetParents(c.tasks), |c.tags|, |c.comments|, |c.taskTags|))
  {
    AllTablesOf(c);
  }

  /** The counts a complete run reports. */
  lemma RunSummary(userCount: nat, d: RunDraws)
    requires RunDrawsOk(userCount, d) && userCount > 0
    ensures var s := Audit.Audit(TablesOf(FinalContents(d)));
      && s.Some?
      && s.value.orgs == 1
      && s.value.tags == 4
      && s.value.users == userCount
      && s.value.teams == 3
      && s.value.memberships == 3 * Min(TEAM_SAMPLE_CAP, userCount)
      && 6 <= s.value.projects <= 11
      && s.value.sections == 4 * s.value.projects
      && s.value.tasks == 20 * s.value.projects
      && s.value.subtasks <= 60 * s.value.projects
      && 20 * s.value.projects <= s.value.taskTags <= 40 * s.value.projects
      && s.value.comments == 0
  {
    TeamsUpToTally(userCount, d, |TEAM_DEFS|);
    ProjectsInRunBounds(userCount, d);
    MembersInRunTotal(userCount, d);
    AuditOfContents(FinalContents(d));
  }

  /** Every task row is counted once: the task table holds twenty to
      eighty rows per project. */
  lemma RunTaskRows(userCount: nat, d: RunDraws)
    requires RunDrawsOk(userCount, d) && userCount > 0
    ensures var s := Audit.Audit(TablesOf(FinalContents(d)));
      && s.Some?
      && s.value.tasks + s.value.subtasks == |FinalContents(d).tasks|
      && 20 * s.value.projects <= |FinalContents(d).tasks| <= 80 * s.value.projects
  {
    var c := FinalContents(d);
    TeamsUpToTally(userCount, d, |TEAM_DEFS|);
    AuditOfContents(c);
    ParentCountsPartition(c.tasks);
  }

  /** The counts a run without users would report had it reached the
      audit: the organization, the four tags, the first team without
      members, its first project with its four sections, and no task. */
  lemma NoUsersSummary(d: RunDraws)
    requires RunDrawsOk(0, d)
    ensures Audit.Audit(TablesOf(NoUsersContents(d))) == Some(Summary(
      orgs := 1, users := 0, teams := 1, memberships := 0, projects := 1, sections := 4,
      tasks := 0, subtasks := 0, tags := 4, comments := 0, taskTags := 0))
  {
    var td := d.teams[0];
    assert TeamDrawsOk(0, td, DrawnUserIds(d), d.tagIds);
    assert |td.members| == 0;
    var c0 := BaseContents(d);
    assert c0 == NO_ROWS.(orgs := [OrgRow(d.orgId)], tags := TagRows(d.tagIds), users := []);
    var c1 := TeamHead(c0, 0, d.orgId, td);
    assert c1 == c0.(teams := [TeamRow(td.teamId, d.orgId, 0)]);
    var c := NoUsersContents(d);
    assert c.projects == [ProjectRow(TeamProjects(0, td)[0], td.teamId, TEAM_DEFS[0].0)];
    assert |c.sections| == 4 && c.tasks == [] && c.taskTags == [] && c.comments == [];
    assert c.orgs == c0.orgs && c.tags == c0.tags && c.users == [] && c.teams == c1.teams && c.memberships == [];
    AuditOfContents(c);
  }
}
