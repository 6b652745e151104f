/** The closing audit of a run (src/main.py, _audit_and_report): one
    COUNT(*) per table of the schema, with the task table counted twice,
    once for the rows without a parent task and once for those with one. */
module Audit {
  import opened Common
  import opened Store

  /** parent_task_id is the fifth value of a task row. */
  const PARENT_COLUMN := 4

  /** A task row holds one value per task column. */
  const TASK_ARITY := 9

  /** The counts dictionary, key by key. */
  datatype Summary = Summary(
    orgs: nat, users: nat, teams: nat, memberships: nat, projects: nat, sections: nat,
    tasks: nat, subtasks: nat, tags: nat, comments: nat, taskTags: nat)

  /** `parent_task_id IS NULL` */
  predicate ParentIsNull(r: Row) {
    |r| > PARENT_COLUMN && r[PARENT_COLUMN] == Null
  }

  /** `parent_task_id IS NOT NULL` */
  predicate ParentIsSet(r: Row) {
    |r| > PARENT_COLUMN && r[PARENT_COLUMN] != Null
  }

  function NullParents(rows: seq<Row>): (n: nat)
    ensures n <= |rows|
  {
    if rows == [] then 0
    else NullParents(rows[..|rows| - 1]) + (if ParentIsNull(rows[|rows| - 1]) then 1 else 0)
  }

  function SetParents(rows: seq<Row>): (n: nat)
    ensures n <= |rows|
  {
    if rows == [] then 0
    else SetParents(rows[..|rows| - 1]) + (if ParentIsSet(rows[|rows| - 1]) then 1 else 0)
  }

  lemma {:induction false} ParentCountsAppend(a: seq<Row>, b: seq<Row>)
    ensures NullParents(a + b) == NullParents(a) + NullParents(b)
    ensures SetParents(a + b) == SetParents(a) + SetParents(b)
    decreases |b|
  {
    if b == [] {
      assert a + b == a;
    } else {
      assert (a + b)[..|a + b| - 1] == a + b[..|b| - 1];
      ParentCountsAppend(a, b[..|b| - 1]);
    }
  }

  /** The "tasks" and "subtasks" counts split the task table: every row of
      full width is counted by exactly one of the two queries. */
  lemma {:induction false} ParentCountsPartition(rows: seq<Row>)
    requires forall k :: 0 <= k < |rows| ==> |rows[k]| == TASK_ARITY
    ensures NullParents(rows) + SetParents(rows) == |rows|
    decreases |rows|
  {
    if rows != [] {
      ParentCountsPartition(rows[..|rows| - 1]);
    }
  }

  /** The counts of a store; None when one of the queried tables does not
      exist (the query raises). On task rows of full width the "tasks" and
      "subtasks" counts together cover the whole task table. */
  function Audit(tables: map<Table, seq<Row>>): (s: Option<Summary>)
    ensures s.Some? <==> forall t :: t in SCHEMA_TABLES ==> t in tables
    ensures s.Some? ==>
      && s.value.orgs == |tables[OrgTable]| && s.value.users == |tables[UserTable]|
      && s.value.teams == |tables[TeamTable]| && s.value.memberships == |tables[MembershipTable]|
      && s.value.projects == |tables[ProjectTable]| && s.value.sections == |tables[SectionTable]|
      && s.value.tags == |tables[TagTable]| && s.value.comments == |tables[CommentTable]|
      && s.value.taskTags == |tables[TaskTagTable]|
      && s.value.tasks == NullParents(tables[TaskTable]) && s.value.subtasks == SetParents(tables[TaskTable])
    ensures s.Some? && (forall k :: 0 <= k < |tables[TaskTable]| ==> |tables[TaskTable][k]| == TASK_ARITY) ==>
      s.value.tasks + s.value.subtasks == |tables[TaskTable]|
  {
    if forall t :: t in SCHEMA_TABLES ==> t in tables then
      var taskRows := tables[TaskTable];
      assert (forall k :: 0 <= k < |taskRows| ==> |taskRows[k]| == TASK_ARITY) ==>
             NullParents(taskRows) + SetParents(taskRows) == |taskRows| by {
        if forall k :: 0 <= k < |taskRows| ==> |taskRows[k]| == TASK_ARITY {
          ParentCountsPartition(taskRows);
        }
      }
      Some(Summary(
        orgs := |tables[OrgTable]|,
        users := |tables[UserTable]|,
        teams := |tables[TeamTable]|,
        memberships := |tables[MembershipTable]|,
        projects := |tables[ProjectTable]|,
        sections := |tables[SectionTable]|,
        tasks := NullParents(taskRows),
        subtasks := SetParents(taskRows),
        tags := |tables[TagTable]|,
        comments := |tables[CommentTable]|,
        taskTags := |tables[TaskTagTable]|))
    else None
  }

  /** On a store whose task rows all have full width, "tasks" and
      "subtasks" add up to the size of the task table. */
  lemma AuditSplitsTasks(tables: map<Table, seq<Row>>)
    requires forall t :: t in SCHEMA_TABLES ==> t in tables
    requires forall k :: 0 <= k < |tables[TaskTable]| ==> |tables[TaskTable][k]| == TASK_ARITY
    ensures Audit(tables).Some?
    ensures Audit(tables).value.tasks + Audit(tables).value.subtasks == |tables[TaskTable]|
  {
    ParentCountsPartition(tables[TaskTable]);
  }
}
