# Asana work-graph simulation, modelled in Dafny

The repository fills a SQLite database with a synthetic Asana-like work
graph:

- one organization and four global tags;
- a batch of generated users with corporate e-mail addresses;
- three teams, each with up to twenty sampled members;
- two to five templated projects per team;
- per project, four sections and twenty top-level tasks;
- randomly some subtasks per task, and one or two tag links per top-level task;
- at the end, a count of every table.

This project models that core and proves what it promises:

- the shape and the field contents of what each generator returns;
- the text of the batch INSERT statement;
- the rows a complete run leaves in the store;
- the counts the closing audit reports;
- referential soundness: every reference between the stored rows points at a row that is actually there.

Modules, one per source file or concern:

| module | models |
|---|---|
| `Common` | Option, Distinct, Min, decimal rendering of naturals, Join |
| `Store` | `DatabaseHelper` (src/utils/db_helpers.py). The query text of `batch_insert`. A `Database` class whose `tables` map (table to rows, in insertion order) is updated by `execute_script`, `execute` and `batch_insert`. |
| `Users` | `UserGenerator.generate_batch` and the safe-name / e-mail derivation (src/generators/users.py) |
| `Projects` | the department templates and `generate_for_team` (src/generators/projects.py) |
| `Tasks` | `create_tasks_for_project` (src/generators/tasks.py) |
| `Orchestrator` | `run` (src/main.py). An imperative method over a `Database`, proved equal to the pure step functions `ProjectStep`, `TeamStep` and `FinalContents` over the store contents `Contents`. |
| `Audit` | the COUNT(*) queries of `_audit_and_report` |
| `Report` | the counts a complete run reports |
| `Integrity` | the references between the rows of a complete run |

Model choices:

- Every uuid4, Faker name and `random` call is an input ("draws": `UserDraw`, `ProjectDraws`, `TaskDraw`, `RunDraws`). Well-formedness predicates state what the library calls guarantee:
  - `random.choice` returns an element of its argument;
  - `random.sample` returns distinct positions;
  - `randint` stays within its bounds.
- The description of a project's first task comes from the LLM helper. It is modelled as an opaque function `describe(name, project_type)` supplied with the task context.
- Each `execute` in `run` is one fixed INSERT statement, so a statement is modelled by the table it names and its column list. `TableName` gives the table's SQL name. A statement fails when its table does not exist or when a row does not supply one value per placeholder.
- In the model, once the schema exists every statement of `run` passes. So the modelled run can end in only two ways besides success:
  - the organization INSERT fails when the schema file is missing, because `execute_script` only logs that;
  - `random.choice([])` raises inside the task generator when there are no users. The rows committed before that point stay in the store: the organization, the tags, the first team, and the first project with its sections.
- The comment at src/generators/users.py:23 says a set is used "to ensure 100% unique emails". The code does not do that: `emails_seen` is never consulted, and uniqueness rests only on the four-character id prefix. The model follows the code. `Users.BatchEmailsCollideIff` states exactly when two e-mails coincide, and `Users.EmailsNotUnique` gives two users that share one.

## Model

| member | source | states |
|---|---|---|
| `Store.InsertQueryBindsOnePerColumn` | src/utils/db_helpers.py:55-57 | the batch INSERT statement has exactly one `?` parameter per column when the table and column names contain none |
| `Store.PlaceholdersBindOnePerColumn` | src/utils/db_helpers.py:55 | the placeholder list holds one `?` per column and is `3n-2` characters long (empty for no columns) |
| `Store.ColumnListRoundTrip` | src/utils/db_helpers.py:56 | splitting the `", "`-joined column list at its separators gives back the columns in order (column names without commas) |
| `Store.Database.ExecuteScript` | src/utils/db_helpers.py:33-48 | a missing schema file leaves the store unchanged; otherwise the schema's empty tables are created |
| `Store.Database.BatchInsert` | src/utils/db_helpers.py:50-67 | no rows is a no-op. Otherwise the outcome is a missing table or an arity error, or else every row is appended to its table in order. On failure the store is unchanged. |
| `Store.Database.Execute` | src/utils/db_helpers.py:69-82 | a single-row INSERT appends exactly its one row, or fails without changing the store |
| `Store.Database.Delete` | src/main.py:24-27 | removing the database file leaves no tables |
| `Users.Lower` | src/generators/users.py:31 | lower-casing keeps the length and maps each character on its own |
| `Users.ReplaceChar` | src/generators/users.py:31 | replacing spaces by dots keeps the length and changes exactly the spaces |
| `Users.IdPrefix` | src/generators/users.py:32 | `u_uuid[:4]` is a prefix of the id, `min(len(id), 4)` characters long |
| `Users.KeepAlnumSound` | src/generators/users.py:31 | the alphanumeric filter returns only alphanumerics, never grows, and keeps an all-alphanumeric string whole |
| `Users.KeepAlnumAppend` | src/generators/users.py:31 | the filter of a concatenation is the concatenation of the filters, so characters are judged one by one and kept in order |
| `Users.KeepAlnumChar` | src/generators/users.py:31 | a single character is kept exactly when it is alphanumeric |
| `Users.SafeNameIsAlnum` | src/generators/users.py:31 | the safe name is purely alphanumeric, so it holds no dot, space or `@` |
| `Users.KeepAlnumIgnoresReplacedSpaces` | src/generators/users.py:31 | filtering after replacing spaces by dots equals filtering directly |
| `Users.SafeNameIsLowerAlnum` | src/generators/users.py:31 | the safe name is the alphanumerics of the lower-cased name (the dot replacement has no effect) |
| `Users.DecodeEmailRoundTrip` | src/generators/users.py:32 | an e-mail can be read back into its safe name and four-character id prefix |
| `Users.EmailInjective` | src/generators/users.py:32 | two e-mails are equal if and only if their safe names and prefixes are equal |
| `Users.MakeUserFields` | src/generators/users.py:27-41 | the user record keeps the drawn id and name and gets the derived e-mail, a role and a department from the fixed pools, and `is_active` equal to 1 exactly when drawn active, else 0 |
| `Users.GenerateBatch` | src/generators/users.py:17-44 | `count` users, the i-th built from the i-th iteration's draws |
| `Users.BatchEmailsCollideIff` | src/generators/users.py:23-32 | two users of a batch share an e-mail if and only if their safe names and id prefixes agree |
| `Users.EmailsNotUnique` | src/generators/users.py:23-32 | two users with different ids can get the same e-mail, because the set of seen e-mails is never consulted |
| `Projects.PoolsAreDistinct` | src/generators/projects.py:6-34 | every name pool (template or fallback) has two to six names, with no repeats |
| `Projects.SelectedNames` | src/generators/projects.py:37 | the sample has one name per pick; every name is from the pool; the names are distinct |
| `Projects.ProjectsFor` | src/generators/projects.py:28-47 | `min(num_projects, len(pool))` projects, always two to five. Each has the team id, the department as project type, its drawn uuid and a pool name. Names are pairwise distinct. |
| `Projects.GenerateForTeam` | src/generators/projects.py:28-47 | the loop builds exactly `ProjectsFor`, in sample order |
| `Projects.TwoNamePoolsGiveTwoProjects` | src/generators/projects.py:16-37 | Product, Sales, Operations and unknown departments always get exactly two projects; unknown departments get names from the fallback pool |
| `Projects.LargePoolCounts` | src/generators/projects.py:7-37 | Marketing gets two to four projects; Engineering gets exactly the drawn count |
| `Tasks.CreateTasksForProject` | src/generators/tasks.py:11-62 | the loop returns the task and tag-link lists of twenty iterations, `TasksUpTo` and `LinksUpTo` |
| `Tasks.CreateTaskBlock` | src/generators/tasks.py:16-51 | one iteration appends its main task, then its subtasks when the expansion draw holds |
| `Tasks.CreateSubtasks` | src/generators/tasks.py:39-51 | the subtask loop builds one subtask per draw, in order |
| `Tasks.LinkTags` | src/generators/tasks.py:55-60 | the tag loop builds one link per sampled tag, in order |
| `Tasks.BlockShape` | src/generators/tasks.py:24-51 | a block is its top-level task followed by up to three subtasks. It has more than one task exactly when expanded. Every subtask has the block's task as parent, the same project and section, and the name `Subtask j: <parent name>`. |
| `Tasks.BlockTopLevel` | src/generators/tasks.py:24-51 | a block holds exactly one parent-less task, its first |
| `Tasks.Counts` | src/generators/tasks.py:15-60 | after n iterations there are exactly n top-level tasks, between n and 4n tasks, and between n and 2n tag links |
| `Tasks.TopLevelInOrder` | src/generators/tasks.py:15-35 | the parent-less tasks, in list order, are the main tasks of iterations 0, 1, … |
| `Tasks.TopLevelTasks` | src/generators/tasks.py:15-35 | the i-th top-level task has the i-th drawn id, no parent, and the name `<type> Phase p: Task i+1` with p from 1 to 5. Only task 0 takes its description from the collaborator; the others read "Standard task.". The due date is 2026-03-15. |
| `Tasks.AllTasksFieldsOk` | src/generators/tasks.py:24-51 | every task belongs to the project. Its assignee is one of the given users, its section one of the given sections, and its priority one of the four. Top-level tasks are due on 2026-03-15. Subtasks have no due date and the fixed subtask description. |
| `Tasks.SubtasksFollowParent` | src/generators/tasks.py:37-51 | every subtask comes after its parent, within three positions. The parent is a top-level task of the same project and section, and everything in between is also its subtask. |
| `Tasks.NoSubtaskIsAParent` | src/generators/tasks.py:37-51 | with fresh task ids, nesting is one level deep and a parent precedes its subtasks |
| `Tasks.TopNamesDistinct` | src/generators/tasks.py:21 | the names of two different iterations differ, whatever phases they drew |
| `Tasks.LinksNameListedTasks` | src/generators/tasks.py:55-60 | every tag link names a top-level task of the returned list |
| `Tasks.LinksNameTopLevelTasks` | src/generators/tasks.py:53-60 | every tag link names a tag from `tag_ids` and the id of some iteration's main task |
| `Tasks.LinksOfShape` | src/generators/tasks.py:55-60 | an iteration makes one or two links, each naming its task and a tag from `tag_ids`, and no two naming the same tag |
| `Tasks.LinksPerTopLevelTask` | src/generators/tasks.py:53-60 | with fresh ids, the links naming the i-th main task are exactly the ones iteration i made |
| `Audit.ParentCountsPartition` | src/main.py:112-113 | on nine-column task rows, the `IS NULL` and `IS NOT NULL` counts add up to the table size |
| `Audit.Audit` | src/main.py:99-117 | the counts exist exactly when every schema table exists (a query on a missing table raises). On task rows of full width, "tasks" and "subtasks" together cover the whole task table. |
| `Audit.AuditSplitsTasks` | src/main.py:112-113 | "tasks" plus "subtasks" is the size of the task table |
| `Orchestrator.Run` | src/main.py:32-97 | the run completes exactly when the schema file exists and there are users. Without the schema it fails on the organization INSERT and the store is empty. Without users it fails at `random.choice([])`, leaving the rows committed before: `NoUsersContents`. A completed run leaves exactly `FinalContents` and reports its audit. |
| `Orchestrator.InitializeAndInsertOrg` | src/main.py:24-39 | the organization INSERT passes if and only if the schema was created; then the store holds just the organization row |
| `Orchestrator.InsertTags` | src/main.py:42-47 | the four tag rows are appended in `TAG_DEFS` order, and `tag_ids` lists their ids |
| `Orchestrator.InsertUsers` | src/main.py:50-56 | the users are batch-inserted in generation order, and `user_ids` lists their ids |
| `Orchestrator.InsertTeams` | src/main.py:59-95 | the team loop leaves `FinalContents`, or stops with the empty-choice error exactly when there are no users, leaving `NoUsersContents` |
| `Orchestrator.InsertTeam` | src/main.py:60-95 | one team iteration leaves `TeamStep`, or fails exactly when there are no users, after its team row and its first project's row and sections |
| `Orchestrator.InsertTeamHead` | src/main.py:61-69 | the team row, then one membership row per sampled user |
| `Orchestrator.InsertTeamProjects` | src/main.py:72-95 | the project loop leaves `ProjectsUpTo` over all of the team's projects, or fails exactly when the team has no members, after the first project's row and sections |
| `Orchestrator.InsertProject` | src/main.py:73-95 | one project iteration leaves `ProjectStep`, or fails exactly when the team has no members, after its project row and sections were committed |
| `Orchestrator.InsertProjectHead` | src/main.py:74-82 | the project row, then its four sections in order; `section_ids` lists their ids |
| `Orchestrator.InsertTaskBatches` | src/main.py:89-95 | the task rows, then the link rows, each batch appended when non-empty |
| `Report.TaskRowsParents` | src/main.py:112-113 | on generated task rows, the `IS NULL` count is the number of top-level tasks and the `IS NOT NULL` count the rest |
| `Report.ProjectStepTally` | src/main.py:73-95 | one project adds one project row, four sections, twenty top-level tasks, at most sixty subtasks and twenty to forty links, and touches no other table |
| `Report.ProjectsUpToTally` | src/main.py:73-95 | k projects add k times those counts |
| `Report.TeamStepTally` | src/main.py:60-95 | one team adds its row, its sampled members and its projects' counts |
| `Report.TeamsUpToTally` | src/main.py:59-95 | after k teams the store holds one organization, four tags, n users, k teams, their members and their projects' counts |
| `Report.ProjectsInRunBounds` | src/main.py:59-72 | the three teams generate six to eleven projects: Engineering its drawn 2-5, Marketing 2-4, Sales 2 |
| `Report.MembersInRunTotal` | src/main.py:66 | the teams hold `3 * min(20, n)` memberships |
| `Report.AuditOfContents` | src/main.py:105-117 | the audit of any store contents gives every table's size, and the null-parent and set-parent counts of its task rows |
| `Report.RunSummary` | src/main.py:97-117 | a complete run reports 1 organization, 4 tags, n users and 3 teams. It reports `3*min(20,n)` memberships and 6-11 projects P. It reports 4P sections, 20P tasks, at most 60P subtasks, 20P-40P task tags and no comments. |
| `Report.NoUsersSummary` | src/main.py:36-87 | a run without users leaves one organization, four tags, one team without members, one project with four sections, and no users, tasks or tag links |
| `Report.RunTaskRows` | src/main.py:112-113 | "tasks" and "subtasks" count every task row once; the table holds 20P to 80P rows |
| `Integrity.ReferentialGrows` | src/main.py:32-95 | appending rows whose references are backed keeps a sound store sound |
| `Integrity.GeneratedTasksBacked` | src/generators/tasks.py:11-62 | the generated tasks take their fields from the context, and every subtask follows a top-level parent |
| `Integrity.TaskRowsOk` | src/main.py:89-92 | every task row names its project, an assignee who is a member of the project's team, and a section of that project. A subtask row names a top-level task row of the same project and section. |
| `Integrity.LinkRowsOk` | src/main.py:94-95 | every task-tag row names a stored top-level task and a stored tag |
| `Integrity.SectionRowsOk` | src/main.py:77-82 | every section row names its project's row |
| `Integrity.ProjectStepReferential` | src/main.py:73-95 | one project keeps the store sound and only appends rows |
| `Integrity.ProjectsUpToReferential` | src/main.py:73-95 | a team's project loop keeps the store sound |
| `Integrity.TeamHeadReferential` | src/main.py:61-69 | the team row names the organization, and its memberships name the team and existing users |
| `Integrity.TeamStepReferential` | src/main.py:60-95 | one team iteration keeps the store sound and only appends rows |
| `Integrity.BaseReferential` | src/main.py:36-56 | the organization, tags and users form a sound store that every later row can refer to |
| `Integrity.TeamsUpToReferential` | src/main.py:59-95 | the team loop keeps the store sound |
| `Integrity.RunIsReferential` | src/main.py:32-95 | after a complete run, no team, membership, project, section, task or task-tag row refers to a missing row |

## Left out

- Faker, `uuid.uuid4` and `random` are inputs of the model ("draws"). The model does not capture the 95% / 30% probabilities or the locale mix. It does not capture that uuid4 strings are fresh: lemmas that need fresh ids require them.
- `Users.Lower`: models `str.lower` on ASCII upper-case letters only, and `IsAlnum` accepts ASCII letters and digits only. Non-ASCII names (possible with the en_IN locale) can therefore give a different safe name than Python's Unicode-aware methods.
- E-mail uniqueness: `generate_batch` creates the `emails_seen` set but never reads or updates it. The model does the same and promises no uniqueness; `Users.EmailsNotUnique` exhibits a collision.
- The SQLite schema, its column types, keys and constraints are not modelled (schema.sql is not part of this model). `Store.EmptySchema` stands in for it: the ten tables the statements name, all empty. A statement fails only for a missing table or a wrong number of values. The comments table is created but never written.
- A UNIQUE or other constraint in the schema would be a further way for `run` to fail. Two users with the same e-mail (`Users.EmailsNotUnique`) would then make the users `batch_insert` raise. The model does not capture this failure.
- The value types of user rows are modelled as `Int` for `is_active`; SQLite type affinity is not.
- Only the INSERT statements that `run` issues are modelled. `execute` without parameters and the returned cursor are not.
- `execute` with a table that exists but an SQL error of another kind is not modelled. After a failing `execute` or `batch_insert`, the model leaves the store unchanged, matching the missing commit; partial effects of `executemany` inside SQLite are not modelled.
- `get_connection`, connection handling, logging, `print`, the output directory and path handling are I/O and are left out. So is `_print_summary`, which prints the counts `Audit.Audit` computes.
- `LLMHelper` (src/utils/llm_helper.py) and test_llm.py are not part of this model. The description collaborator is an arbitrary function of `(name, project_type)`.
- Sampled team members and the tags sampled per task are required to be distinct, which is what `random.sample` returns. User ids are required to be distinct, as fresh uuid4s are.
- Concurrency and the `__main__` entry point are left out. The default `user_count` of 5000 is a parameter.
