/** The simulation run (src/main.py, AsanaSimulationOrchestrator.run): a
    fresh store, the schema, one organization, four tags, the user batch,
    then for each of three teams its memberships, its projects and, per
    project, four sections, the generated tasks and their tag links.
    uuid4 ids, every random draw and the description collaborator are
    inputs (RunDraws). */
module Orchestrator {
  import opened Common
  import opened Store
  import Users
  import Projects
  import Tasks
  import Audit

  const ORG_NAME := "Acme Global Tech"
  const ORG_DOMAIN := "acme-tech.ai"

  /** The global tags, in insertion order: (name, colour). */
  const TAG_DEFS: seq<(string, string)> :=
    [("Urgent", "red"), ("Blocked", "yellow"), ("Refactor", "blue"), ("Low Priority", "green")]

  /** The teams, in insertion order: (name, description). The name is also
      the department handed to the project generator. */
  const TEAM_DEFS: seq<(string, string)> :=
    [("Engineering", "Core Product"), ("Marketing", "Growth"), ("Sales", "Enterprise")]

  /** At most this many users are sampled into each team. */
  const TEAM_SAMPLE_CAP := 20

  const SECTION_NAMES: seq<string> := ["Backlog", "In Progress", "Review", "Done"]

  const ORG_COLUMNS: seq<string> := ["organization_id", "name", "domain"]
  const TAG_COLUMNS: seq<string> := ["tag_id", "name", "color"]
  /** The keys of a user record, in the order the generator builds it. */
  const USER_COLUMNS: seq<string> := ["user_id", "name", "email", "role", "department", "is_active"]
  const TEAM_COLUMNS: seq<string> := ["team_id", "organization_id", "name", "description"]
  const MEMBERSHIP_COLUMNS: seq<string> := ["membership_id", "team_id", "user_id"]
  const PROJECT_COLUMNS: seq<string> := ["project_id", "team_id", "name", "project_type"]
  const SECTION_COLUMNS: seq<string> := ["section_id", "project_id", "name"]
  const TASK_COLUMNS: seq<string> :=
    ["task_id", "project_id", "section_id", "assignee_id", "parent_task_id", "name", "description", "priority", "due_date"]
  const LINK_COLUMNS: seq<string> := ["task_id", "tag_id"]

  // ---------------------------------------------------------------------
  // Draws

  /** Per project: the uuid4 of each of its four sections, the description
      collaborator for its first task, and the twenty iterations' draws of
      the task generator. */
  datatype ProjectRunDraws = ProjectRunDraws(
    sectionIds: seq<string>,
    describe: (string, string) -> string,
    tasks: seq<Tasks.TaskDraw>)

  /** Per team: its uuid4, what random.sample(user_ids, min(20, n)) returns,
      one uuid4 per membership, the project generator's draws and the draws
      of each generated project. */
  datatype TeamDraws = TeamDraws(
    teamId: string,
    members: seq<string>,
    membershipIds: seq<string>,
    projects: Projects.ProjectDraws,
    perProject: seq<ProjectRunDraws>)

  /** Whether the schema file exists, the organization's and the tags'
      uuid4s, one draw per generated user and the draws of each team. */
  datatype RunDraws = RunDraws(
    schemaFound: bool,
    orgId: string,
    tagIds: seq<string>,
    users: seq<Users.UserDraw>,
    teams: seq<TeamDraws>)

  /** The sizes the run relies on when it indexes the draws. */
  predicate ProjectRunShape(pd: ProjectRunDraws) {
    |pd.sectionIds| == |SECTION_NAMES| && |pd.tasks| == Tasks.TOP_LEVEL_COUNT
  }

  predicate TeamShape(t: nat, td: TeamDraws) {
    && t < |TEAM_DEFS|
    && |td.membershipIds| == |td.members|
    && Projects.ProjectDrawsOk(TEAM_DEFS[t].0, td.projects)
    && |td.perProject| == |td.projects.picks|
    && forall j :: 0 <= j < |td.perProject| ==> ProjectRunShape(td.perProject[j])
  }

  predicate RunShape(d: RunDraws) {
    && |d.tagIds| == |TAG_DEFS|
    && |d.teams| == |TEAM_DEFS|
    && forall t :: 0 <= t < |d.teams| ==> TeamShape(t, d.teams[t])
  }

  /** The ids of the generated users, in generation order. */
  function DrawnUserIds(d: RunDraws): (ids: seq<string>)
    ensures |ids| == |d.users| && forall i :: 0 <= i < |d.users| ==> ids[i] == d.users[i].uuid
  {
    seq(|d.users|, i requires 0 <= i < |d.users| => d.users[i].uuid)
  }

  /** The task generator's arguments for one project. */
  function ProjectContext(projectId: string, teamName: string, members: seq<string>,
                          tagIds: seq<string>, pd: ProjectRunDraws): Tasks.TaskContext
  {
    Tasks.TaskContext(projectId, teamName, members, pd.sectionIds, tagIds, pd.describe)
  }

  /** A team's draws: a duplicate-free sample of min(20, n) user ids, and
      valid task draws for each project when there is anyone to assign. */
  predicate TeamDrawsOk(t: nat, td: TeamDraws, userIds: seq<string>, tagIds: seq<string>) {
    && TeamShape(t, td)
    && |td.members| == Min(TEAM_SAMPLE_CAP, |userIds|)
    && (forall k :: 0 <= k < |td.members| ==> td.members[k] in userIds)
    && Distinct(td.members)
    && forall j :: 0 <= j < |td.perProject| ==>
         (|td.members| > 0 ==>
            Tasks.DrawsOk(ProjectContext(td.projects.ids[j], TEAM_DEFS[t].0, td.members, tagIds, td.perProject[j]),
                          td.perProject[j].tasks))
  }

  /** Well-formed draws for run(user_count): fresh user ids. */
  predicate RunDrawsOk(userCount: nat, d: RunDraws) {
    && RunShape(d)
    && |d.users| == userCount
    && (forall i :: 0 <= i < |d.users| ==> Users.UserDrawOk(d.users[i]))
    && Distinct(DrawnUserIds(d))
    && forall t :: 0 <= t < |d.teams| ==> TeamDrawsOk(t, d.teams[t], DrawnUserIds(d), d.tagIds)
  }

  // ---------------------------------------------------------------------
  // Rows, in the column order of their INSERT statements

  function OptText(v: Option<string>): Value {
    match v
    case None => Null
    case Some(s) => Text(s)
  }

  function OrgRow(orgId: string): Row {
    [Text(orgId), Text(ORG_NAME), Text(ORG_DOMAIN)]
  }

  function TagRows(tagIds: seq<string>): (rows: seq<Row>)
    requires |tagIds| == |TAG_DEFS|
    ensures |rows| == |TAG_DEFS|
    ensures forall k :: 0 <= k < |rows| ==>
      rows[k] == [Text(tagIds[k]), Text(TAG_DEFS[k].0), Text(TAG_DEFS[k].1)]
  {
    seq(|tagIds|, k requires 0 <= k < |tagIds| => [Text(tagIds[k]), Text(TAG_DEFS[k].0), Text(TAG_DEFS[k].1)])
  }

  /** list(u.values()) for a user record. */
  function UserRow(u: Users.User): Row {
    [Text(u.userId), Text(u.name), Text(u.email), Text(u.role), Text(u.department), Int(u.isActive)]
  }

  function UsersOf(draws: seq<Users.UserDraw>): (us: seq<Users.User>)
    ensures |us| == |draws| && forall i :: 0 <= i < |us| ==> us[i] == Users.MakeUser(draws[i])
  {
    seq(|draws|, i requires 0 <= i < |draws| => Users.MakeUser(draws[i]))
  }

  function UserRows(us: seq<Users.User>): (rows: seq<Row>)
    ensures |rows| == |us| && forall i :: 0 <= i < |us| ==> rows[i] == UserRow(us[i])
  {
    seq(|us|, i requires 0 <= i < |us| => UserRow(us[i]))
  }

  function TeamRow(teamId: string, orgId: string, t: nat): Row
    requires t < |TEAM_DEFS|
  {
    [Text(teamId), Text(orgId), Text(TEAM_DEFS[t].0), Text(TEAM_DEFS[t].1)]
  }

  function MembershipRows(teamId: string, members: seq<string>, membershipIds: seq<string>): (rows: seq<Row>)
    requires |membershipIds| == |members|
    ensures |rows| == |members|
    ensures forall k :: 0 <= k < |rows| ==> rows[k] == [Text(membershipIds[k]), Text(teamId), Text(members[k])]
  {
    seq(|members|, k requires 0 <= k < |members| => [Text(membershipIds[k]), Text(teamId), Text(members[k])])
  }

  function ProjectRow(p: Projects.Project, teamId: string, teamName: string): Row {
    [Text(p.projectId), Text(teamId), Text(p.name), Text(teamName)]
  }

  function SectionRows(projectId: string, sectionIds: seq<string>): (rows: seq<Row>)
    requires |sectionIds| == |SECTION_NAMES|
    ensures |rows| == |SECTION_NAMES|
    ensures forall k :: 0 <= k < |rows| ==> rows[k] == [Text(sectionIds[k]), Text(projectId), Text(SECTION_NAMES[k])]
  {
    seq(|sectionIds|, k requires 0 <= k < |sectionIds| => [Text(sectionIds[k]), Text(projectId), Text(SECTION_NAMES[k])])
  }

  /** list(t.values()) for a task record: the order of TASK_COLUMNS. */
  function TaskRow(t: Tasks.Task): Row {
    [Text(t.taskId), Text(t.projectId), Text(t.sectionId), Text(t.assigneeId), OptText(t.parentTaskId),
     Text(t.name), Text(t.description), Text(t.priority), OptText(t.dueDate)]
  }

  function TaskRows(ts: seq<Tasks.Task>): (rows: seq<Row>)
    ensures |rows| == |ts| && forall k :: 0 <= k < |ts| ==> rows[k] == TaskRow(ts[k])
  {
    seq(|ts|, k requires 0 <= k < |ts| => TaskRow(ts[k]))
  }

  function LinkRows(ls: seq<Tasks.TagLink>): (rows: seq<Row>)
    ensures |rows| == |ls| && forall k :: 0 <= k < |ls| ==> rows[k] == [Text(ls[k].taskId), Text(ls[k].tagId)]
  {
    seq(|ls|, k requires 0 <= k < |ls| => [Text(ls[k].taskId), Text(ls[k].tagId)])
  }

  // ---------------------------------------------------------------------
  // What the store holds

  /** The rows of every table of the schema (the run writes no comments). */
  datatype Contents = Contents(
    orgs: seq<Row>, tags: seq<Row>, users: seq<Row>, teams: seq<Row>, memberships: seq<Row>,
    projects: seq<Row>, sections: seq<Row>, tasks: seq<Row>, taskTags: seq<Row>, comments: seq<Row>)

  const NO_ROWS := Contents([], [], [], [], [], [], [], [], [], [])

  function TablesOf(c: Contents): map<Table, seq<Row>> {
    map[
      OrgTable := c.orgs, TagTable := c.tags, UserTable := c.users, TeamTable := c.teams,
      MembershipTable := c.memberships, ProjectTable := c.projects, SectionTable := c.sections,
      TaskTable := c.tasks, TaskTagTable := c.taskTags, CommentTable := c.comments]
  }

  function Rows(c: Contents, t: Table): seq<Row> {
    match t
    case OrgTable => c.orgs
    case TagTable => c.tags
    case UserTable => c.users
    case TeamTable => c.teams
    case MembershipTable => c.memberships
    case ProjectTable => c.projects
    case SectionTable => c.sections
    case TaskTable => c.tasks
    case TaskTagTable => c.taskTags
    case CommentTable => c.comments
  }

  /** c with rows appended to table t. */
  function Append(c: Contents, t: Table, rows: seq<Row>): Contents {
    match t
    case OrgTable => c.(orgs := c.orgs + rows)
    case TagTable => c.(tags := c.tags + rows)
    case UserTable => c.(users := c.users + rows)
    case TeamTable => c.(teams := c.teams + rows)
    case MembershipTable => c.(memberships := c.memberships + rows)
    case ProjectTable => c.(projects := c.projects + rows)
    case SectionTable => c.(sections := c.sections + rows)
    case TaskTable => c.(tasks := c.tasks + rows)
    case TaskTagTable => c.(taskTags := c.taskTags + rows)
    case CommentTable => c.(comments := c.comments + rows)
  }

  /** Appending to a table of the store is appending to that field of its
      contents. */
  lemma AppendToTable(c: Contents, t: Table, rows: seq<Row>)
    ensures t in TablesOf(c) && TablesOf(c)[t] == Rows(c, t)
    ensures TablesOf(c)[t := Rows(c, t) + rows] == TablesOf(Append(c, t, rows))
  {
  }

  lemma AppendTwice(c: Contents, t: Table, a: seq<Row>, b: seq<Row>)
    ensures Append(Append(c, t, a), t, b) == Append(c, t, a + b)
  {
    assert Rows(c, t) + a + b == Rows(c, t) + (a + b);
  }

  lemma AppendNothing(c: Contents, t: Table)
    ensures Append(c, t, []) == c
  {
    assert Rows(c, t) + [] == Rows(c, t);
  }

  /** The store of any contents holds every table of the schema. */
  lemma AllTablesOf(c: Contents)
    ensures forall t :: t in SCHEMA_TABLES ==> t in TablesOf(c)
  {
  }

  /** The schema script leaves exactly the tables TablesOf names, empty. */
  lemma EmptySchemaHoldsNoRows()
    ensures EmptySchema() == TablesOf(NO_ROWS)
  {
    var m := TablesOf(NO_ROWS);
    assert forall t :: t in m <==> t in SCHEMA_TABLES;
  }

  /** A project's row and its four sections, in SECTION_NAMES order. */
  function ProjectHead(c: Contents, teamId: string, teamName: string, p: Projects.Project,
                       sectionIds: seq<string>): Contents
    requires |sectionIds| == |SECTION_NAMES|
  {
    var c1 := Append(c, ProjectTable, [ProjectRow(p, teamId, teamName)]);
    Append(c1, SectionTable, SectionRows(p.projectId, sectionIds))
  }

  /** The batch inserts of a project's tasks and tag links. */
  function TaskBatches(c: Contents, tasks: seq<Tasks.Task>, links: seq<Tasks.TagLink>): Contents {
    Append(Append(c, TaskTable, TaskRows(tasks)), TaskTagTable, LinkRows(links))
  }

  /** What one project adds: its row, its four sections, the tasks and the
      tag links the task generator built for it. */
  function ProjectStep(c: Contents, teamId: string, teamName: string, members: seq<string>,
                       tagIds: seq<string>, p: Projects.Project, pd: ProjectRunDraws): Contents
    requires ProjectRunShape(pd)
  {
    var ctx := ProjectContext(p.projectId, teamName, members, tagIds, pd);
    TaskBatches(ProjectHead(c, teamId, teamName, p, pd.sectionIds),
                Tasks.TasksUpTo(ctx, pd.tasks, Tasks.TOP_LEVEL_COUNT),
                Tasks.LinksUpTo(pd.tasks, Tasks.TOP_LEVEL_COUNT))
  }

  /** The first k projects of a team. */
  function ProjectsUpTo(c: Contents, teamId: string, teamName: string, members: seq<string>,
                        tagIds: seq<string>, ps: seq<Projects.Project>, pds: seq<ProjectRunDraws>, k: nat): Contents
    requires k <= |ps| && |ps| == |pds|
    requires forall j :: 0 <= j < |pds| ==> ProjectRunShape(pds[j])
  {
    if k == 0 then c
    else ProjectStep(ProjectsUpTo(c, teamId, teamName, members, tagIds, ps, pds, k - 1),
                     teamId, teamName, members, tagIds, ps[k - 1], pds[k - 1])
  }

  /** One more project is one more step. */
  lemma ProjectsUpToUnfold(c: Contents, teamId: string, teamName: string, members: seq<string>,
                           tagIds: seq<string>, ps: seq<Projects.Project>,
                           pds: seq<ProjectRunDraws>, j: nat)
    requires j < |ps| && |ps| == |pds|
    requires forall i :: 0 <= i < |pds| ==> ProjectRunShape(pds[i])
    ensures ProjectsUpTo(c, teamId, teamName, members, tagIds, ps, pds, j + 1)
         == ProjectStep(ProjectsUpTo(c, teamId, teamName, members, tagIds, ps, pds, j),
                        teamId, teamName, members, tagIds, ps[j], pds[j])
  {
  }

  function TeamProjects(t: nat, td: TeamDraws): (ps: seq<Projects.Project>)
    requires TeamShape(t, td)
    ensures |ps| == |td.perProject| && |ps| >= Projects.MIN_PROJECTS
  {
    Projects.ProjectsFor(td.teamId, TEAM_DEFS[t].0, td.projects)
  }

  /** The team row and its memberships, before its projects. */
  function TeamHead(c: Contents, t: nat, orgId: string, td: TeamDraws): Contents
    requires TeamShape(t, td)
  {
    var c1 := Append(c, TeamTable, [TeamRow(td.teamId, orgId, t)]);
    Append(c1, MembershipTable, MembershipRows(td.teamId, td.members, td.membershipIds))
  }

  /** What team t adds: its row, its memberships, then its projects. */
  function TeamStep(c: Contents, t: nat, orgId: string, tagIds: seq<string>, td: TeamDraws): Contents
    requires TeamShape(t, td)
  {
    var ps := TeamProjects(t, td);
    ProjectsUpTo(TeamHead(c, t, orgId, td), td.teamId, TEAM_DEFS[t].0, td.members, tagIds, ps, td.perProject, |ps|)
  }

  /** The organization, the tags and the users. */
  function BaseContents(d: RunDraws): Contents
    requires RunShape(d)
  {
    var c1 := Append(NO_ROWS, OrgTable, [OrgRow(d.orgId)]);
    var c2 := Append(c1, TagTable, TagRows(d.tagIds));
    Append(c2, UserTable, UserRows(UsersOf(d.users)))
  }

  function TeamsUpTo(d: RunDraws, k: nat): Contents
    requires RunShape(d) && k <= |d.teams|
  {
    if k == 0 then BaseContents(d)
    else TeamStep(TeamsUpTo(d, k - 1), k - 1, d.orgId, d.tagIds, d.teams[k - 1])
  }

  /** What a run without users leaves behind: the organization, the tags,
      the first team's row (with no members), the first project's row and
      its four sections. Every one of those statements was committed
      before random.choice([]) raised in the task generator. */
  function NoUsersContents(d: RunDraws): Contents
    requires RunShape(d)
  {
    var td := d.teams[0];
    var ps := TeamProjects(0, td);
    ProjectHead(TeamHead(BaseContents(d), 0, d.orgId, td), td.teamId, TEAM_DEFS[0].0, ps[0], td.perProject[0].sectionIds)
  }

  /** The store's contents after a complete run. */
  function FinalContents(d: RunDraws): Contents
    requires RunShape(d)
  {
    TeamsUpTo(d, |TEAM_DEFS|)
  }

  // ---------------------------------------------------------------------
  // The run

  datatype RunError =
    | DbFailure(error: DbError)
      /** random.choice on an empty user list, in the task generator. */
    | EmptyChoice

  /** How a run ends: with the audit's counts, or with the error that
      stopped it. */
  datatype RunOutcome = Completed(counts: Audit.Summary) | Failed(reason: RunError)

  /** run(user_count). A statement failing ends the run with its error; once
      the schema exists every later statement names an existing table with
      one value per column and passes, so only the organization's INSERT can
      fail. A run without users ends when the first project's tasks are
      generated. */
  method Run(db: Database, userCount: nat, d: RunDraws) returns (res: RunOutcome)
    requires RunDrawsOk(userCount, d)
    modifies db
    ensures res.Completed? <==> d.schemaFound && userCount > 0
    ensures !d.schemaFound ==> res == Failed(DbFailure(NoSuchTable(OrgTable))) && db.tables == map[]
    ensures d.schemaFound && userCount == 0 ==> res == Failed(EmptyChoice) && db.tables == TablesOf(NoUsersContents(d))
    ensures res.Completed? ==> db.tables == TablesOf(FinalContents(d)) && Audit.Audit(db.tables) == Some(res.counts)
  {
    var r := InitializeAndInsertOrg(db, d.schemaFound, d.orgId);
    if r.Fail? {
      return Failed(DbFailure(r.error));
    }
    ghost var cur := Append(NO_ROWS, OrgTable, [OrgRow(d.orgId)]);

    // 2. the global tags
    var tagIds;
    r, tagIds := InsertTags(db, cur, d.tagIds);
    cur := Append(cur, TagTable, TagRows(d.tagIds));

    // 3. the users
    var userIds;
    r, userIds := InsertUsers(db, cur, userCount, d.users);
    assert userIds == DrawnUserIds(d);

    // 4. the teams, each with its memberships, projects, sections and tasks
    var err := InsertTeams(db, userCount, d, userIds, tagIds);
    if err.Some? {
      return Failed(err.value);
    }

    // _audit_and_report
    AllTablesOf(FinalContents(d));
    var counts := Audit.Audit(db.tables);
    res := Completed(counts.value);
  }

  /** initialize_env, then step 1 of the run: without the schema file no
      table exists and the organization's INSERT is the first to fail. */
  method InitializeAndInsertOrg(db: Database, schemaFound: bool, orgId: string) returns (res: Outcome)
    modifies db
    ensures res.Pass? <==> schemaFound
    ensures !schemaFound ==> res == Fail(NoSuchTable(OrgTable)) && db.tables == map[]
    ensures schemaFound ==> db.tables == TablesOf(Append(NO_ROWS, OrgTable, [OrgRow(orgId)]))
  {
    db.Delete();
    db.ExecuteScript(schemaFound);
    if schemaFound {
      EmptySchemaHoldsNoRows();
      assert db.tables == TablesOf(NO_ROWS);
      res := InsertRow(db, NO_ROWS, OrgTable, ORG_COLUMNS, OrgRow(orgId));
    } else {
      res := db.Execute(OrgTable, ORG_COLUMNS, OrgRow(orgId));
    }
  }

  /** A single-row INSERT whose row has one value per column, into a table
      of the schema: it passes and appends that row. */
  method InsertRow(db: Database, ghost c: Contents, t: Table, columns: seq<string>, row: Row) returns (res: Outcome)
    requires |row| == |columns|
    requires db.tables == TablesOf(c)
    modifies db
    ensures res.Pass?
    ensures db.tables == TablesOf(Append(c, t, [row]))
  {
    AppendToTable(c, t, [row]);
    res := db.Execute(t, columns, row);
  }

  /** A batch insert of rows with one value per column, into a table of the
      schema: it passes and appends the rows (none when there are none). */
  method InsertBatch(db: Database, ghost c: Contents, t: Table, columns: seq<string>, rows: seq<Row>)
    returns (res: Outcome)
    requires forall k :: 0 <= k < |rows| ==> |rows[k]| == |columns|
    requires db.tables == TablesOf(c)
    modifies db
    ensures res.Pass?
    ensures db.tables == TablesOf(Append(c, t, rows))
  {
    AppendToTable(c, t, rows);
    if rows == [] {
      AppendNothing(c, t);
    }
    res := db.BatchInsert(t, columns, rows);
  }

  /** Step 2 of the run: one row per global tag, in TAG_DEFS order;
      tag_ids lists their ids in the same order. */
  method InsertTags(db: Database, ghost c: Contents, drawnIds: seq<string>) returns (res: Outcome, tagIds: seq<string>)
    requires |drawnIds| == |TAG_DEFS|
    requires db.tables == TablesOf(c)
    modifies db
    ensures res.Pass?
    ensures tagIds == drawnIds
    ensures db.tables == TablesOf(Append(c, TagTable, TagRows(drawnIds)))
  {
    ghost var rows := TagRows(drawnIds);
    AppendNothing(c, TagTable);
    tagIds := [];
    for k := 0 to |TAG_DEFS|
      invariant tagIds == drawnIds[..k]
      invariant db.tables == TablesOf(Append(c, TagTable, rows[..k]))
    {
      var tid := drawnIds[k];
      var row := [Text(tid), Text(TAG_DEFS[k].0), Text(TAG_DEFS[k].1)];
      res := InsertRow(db, Append(c, TagTable, rows[..k]), TagTable, TAG_COLUMNS, row);
      assert rows[..k + 1] == rows[..k] + [row];
      AppendTwice(c, TagTable, rows[..k], [row]);
      tagIds := tagIds + [tid];
    }
    assert rows[..|TAG_DEFS|] == rows;
    res := Pass;
  }

  /** Step 3 of the run: the generated users are batch-inserted when there
      are any; user_ids lists their ids in generation order. */
  method InsertUsers(db: Database, ghost c: Contents, userCount: nat, draws: seq<Users.UserDraw>)
    returns (res: Outcome, userIds: seq<string>)
    requires |draws| == userCount
    requires db.tables == TablesOf(c)
    modifies db
    ensures res.Pass?
    ensures |userIds| == |draws| && forall i :: 0 <= i < |draws| ==> userIds[i] == draws[i].uuid
    ensures db.tables == TablesOf(Append(c, UserTable, UserRows(UsersOf(draws))))
  {
    var users := Users.GenerateBatch(userCount, draws);
    assert users == UsersOf(draws);
    var dataList := UserRows(users);
    res := InsertBatch(db, c, UserTable, USER_COLUMNS, dataList);
    userIds := seq(|users|, i requires 0 <= i < |users| => users[i].userId);
  }

  /** Step 4 of the run: the team loop. */
  method InsertTeams(db: Database, userCount: nat, d: RunDraws, userIds: seq<string>, tagIds: seq<string>)
    returns (err: Option<RunError>)
    requires RunShape(d) && tagIds == d.tagIds && |userIds| == userCount
    requires forall t :: 0 <= t < |TEAM_DEFS| ==> TeamDrawsOk(t, d.teams[t], userIds, tagIds)
    requires db.tables == TablesOf(TeamsUpTo(d, 0))
    modifies db
    ensures err.None? <==> userCount > 0
    ensures err.Some? ==> err == Some(EmptyChoice) && db.tables == TablesOf(NoUsersContents(d))
    ensures err.None? ==> db.tables == TablesOf(FinalContents(d))
  {
    for t := 0 to |TEAM_DEFS|
      invariant db.tables == TablesOf(TeamsUpTo(d, t))
      invariant t > 0 ==> userCount > 0
    {
      err := InsertTeam(db, TeamsUpTo(d, t), t, d.orgId, userIds, tagIds, d.teams[t]);
      if err.Some? {
        assert t == 0 && TeamsUpTo(d, t) == BaseContents(d);
        return;
      }
    }
    err := None;
  }

  /** One iteration of the team loop. */
  method InsertTeam(db: Database, ghost c: Contents, t: nat, orgId: string, userIds: seq<string>,
                    tagIds: seq<string>, td: TeamDraws) returns (err: Option<RunError>)
    requires TeamDrawsOk(t, td, userIds, tagIds)
    requires db.tables == TablesOf(c)
    modifies db
    ensures err.None? <==> |userIds| > 0
    ensures err.Some? ==> err == Some(EmptyChoice)
    ensures err.Some? ==> db.tables == TablesOf(ProjectHead(TeamHead(c, t, orgId, td), td.teamId, TEAM_DEFS[t].0,
                                                            TeamProjects(t, td)[0], td.perProject[0].sectionIds))
    ensures err.None? ==> db.tables == TablesOf(TeamStep(c, t, orgId, tagIds, td))
  {
    var _ := InsertTeamHead(db, c, t, orgId, td);
    var (tName, _) := TEAM_DEFS[t];
    var projects := Projects.GenerateForTeam(td.teamId, tName, td.projects);
    err := InsertTeamProjects(db, TeamHead(c, t, orgId, td), td.teamId, tName, td.members, tagIds,
                              projects, td.perProject);
  }

  /** The team row, then one membership row per sampled user. */
  method InsertTeamHead(db: Database, ghost c: Contents, t: nat, orgId: string, td: TeamDraws) returns (res: Outcome)
    requires TeamShape(t, td)
    requires db.tables == TablesOf(c)
    modifies db
    ensures res.Pass?
    ensures db.tables == TablesOf(TeamHead(c, t, orgId, td))
  {
    var (tName, tDesc) := TEAM_DEFS[t];
    var tId := td.teamId;
    var row := [Text(tId), Text(orgId), Text(tName), Text(tDesc)];
    res := InsertRow(db, c, TeamTable, TEAM_COLUMNS, row);
    ghost var c1 := Append(c, TeamTable, [row]);
    ghost var rows := MembershipRows(tId, td.members, td.membershipIds);

    var teamUsers := td.members;
    AppendNothing(c1, MembershipTable);
    for k := 0 to |teamUsers|
      invariant db.tables == TablesOf(Append(c1, MembershipTable, rows[..k]))
    {
      var mrow := [Text(td.membershipIds[k]), Text(tId), Text(teamUsers[k])];
      res := InsertRow(db, Append(c1, MembershipTable, rows[..k]), MembershipTable, MEMBERSHIP_COLUMNS, mrow);
      assert rows[..k + 1] == rows[..k] + [mrow];
      AppendTwice(c1, MembershipTable, rows[..k], [mrow]);
    }
    assert rows[..|teamUsers|] == rows;
    res := Pass;
  }

  /** The project loop of a team. */
  method InsertTeamProjects(db: Database, ghost c: Contents, tId: string, tName: string, teamUsers: seq<string>,
                            tagIds: seq<string>, projects: seq<Projects.Project>, pds: seq<ProjectRunDraws>)
    returns (err: Option<RunError>)
    requires |projects| == |pds| && |projects| > 0
    requires forall j :: 0 <= j < |pds| ==> ProjectRunShape(pds[j])
    requires forall j :: 0 <= j < |pds| ==> |teamUsers| > 0 ==>
      Tasks.DrawsOk(ProjectContext(projects[j].projectId, tName, teamUsers, tagIds, pds[j]), pds[j].tasks)
    requires db.tables == TablesOf(c)
    modifies db
    ensures err.None? <==> |teamUsers| > 0
    ensures err.Some? ==> err == Some(EmptyChoice)
    ensures err.Some? ==>
      ProjectRunShape(pds[0]) && db.tables == TablesOf(ProjectHead(c, tId, tName, projects[0], pds[0].sectionIds))
    ensures err.None? ==> db.tables == TablesOf(ProjectsUpTo(c, tId, tName, teamUsers, tagIds, projects, pds, |projects|))
  {
    for p := 0 to |projects|
      invariant db.tables == TablesOf(ProjectsUpTo(c, tId, tName, teamUsers, tagIds, projects, pds, p))
      invariant p > 0 ==> |teamUsers| > 0
    {
      err := InsertProject(db, ProjectsUpTo(c, tId, tName, teamUsers, tagIds, projects, pds, p),
                           tId, tName, teamUsers, tagIds, projects[p], pds[p]);
      if err.Some? {
        return;
      }
    }
    err := None;
  }

  /** One iteration of the project loop. */
  method InsertProject(db: Database, ghost c: Contents, tId: string, tName: string, teamUsers: seq<string>,
                       tagIds: seq<string>, p: Projects.Project, pd: ProjectRunDraws) returns (err: Option<RunError>)
    requires ProjectRunShape(pd)
    requires |teamUsers| > 0 ==> Tasks.DrawsOk(ProjectContext(p.projectId, tName, teamUsers, tagIds, pd), pd.tasks)
    requires db.tables == TablesOf(c)
    modifies db
    ensures err.None? <==> |teamUsers| > 0
    ensures err.Some? ==> err == Some(EmptyChoice)
    ensures err.Some? ==> db.tables == TablesOf(ProjectHead(c, tId, tName, p, pd.sectionIds))
    ensures err.None? ==> db.tables == TablesOf(ProjectStep(c, tId, tName, teamUsers, tagIds, p, pd))
  {
    var _, sectionIds := InsertProjectHead(db, c, tId, tName, p, pd.sectionIds);
    if |teamUsers| == 0 {
      return Some(EmptyChoice);
    }
    var ctx := Tasks.TaskContext(p.projectId, tName, teamUsers, sectionIds, tagIds, pd.describe);
    var tasks, tagLinks := Tasks.CreateTasksForProject(ctx, pd.tasks);
    var _ := InsertTaskBatches(db, ProjectHead(c, tId, tName, p, pd.sectionIds), tasks, tagLinks);
    err := None;
  }

  /** The project row, then one row per section name; section_ids lists
      their ids in the same order. */
  method InsertProjectHead(db: Database, ghost c: Contents, tId: string, tName: string, p: Projects.Project,
                           drawnIds: seq<string>) returns (res: Outcome, sectionIds: seq<string>)
    requires |drawnIds| == |SECTION_NAMES|
    requires db.tables == TablesOf(c)
    modifies db
    ensures res.Pass?
    ensures sectionIds == drawnIds
    ensures db.tables == TablesOf(ProjectHead(c, tId, tName, p, drawnIds))
  {
    var prow := ProjectRow(p, tId, tName);
    res := InsertRow(db, c, ProjectTable, PROJECT_COLUMNS, prow);
    ghost var c1 := Append(c, ProjectTable, [prow]);
    ghost var rows := SectionRows(p.projectId, drawnIds);

    sectionIds := [];
    AppendNothing(c1, SectionTable);
    for k := 0 to |SECTION_NAMES|
      invariant sectionIds == drawnIds[..k]
      invariant db.tables == TablesOf(Append(c1, SectionTable, rows[..k]))
    {
      var sId := drawnIds[k];
      var srow := [Text(sId), Text(p.projectId), Text(SECTION_NAMES[k])];
      res := InsertRow(db, Append(c1, SectionTable, rows[..k]), SectionTable, SECTION_COLUMNS, srow);
      assert rows[..k + 1] == rows[..k] + [srow];
      AppendTwice(c1, SectionTable, rows[..k], [srow]);
      sectionIds := sectionIds + [sId];
    }
    assert rows[..|SECTION_NAMES|] == rows;
    res := Pass;
  }

  /** `if tasks:` batch-insert the task rows; `if tag_links:` the links. */
  method InsertTaskBatches(db: Database, ghost c: Contents, tasks: seq<Tasks.Task>, tagLinks: seq<Tasks.TagLink>)
    returns (res: Outcome)
    requires db.tables == TablesOf(c)
    modifies db
    ensures res.Pass?
    ensures db.tables == TablesOf(TaskBatches(c, tasks, tagLinks))
  {
    var taskRows := TaskRows(tasks);
    res := InsertBatch(db, c, TaskTable, TASK_COLUMNS, taskRows);
    var linkRows := LinkRows(tagLinks);
    res := InsertBatch(db, Append(c, TaskTable, taskRows), TaskTagTable, LINK_COLUMNS, linkRows);
  }
}
