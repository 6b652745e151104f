/** The project generator (src/generators/projects.py): a department-keyed
    pool of project names with a generic fallback, a random count in [2, 5]
    capped at the pool's size, and names sampled without replacement.
    The count, the sample and the uuid4 ids are inputs (ProjectDraws). */
module Projects {
  import opened Common

  const TEMPLATES: map<string, seq<string>> := map[
    "Engineering" := [
      "Infrastructure Migration 2026", "Mobile App - Sprint Backlog",
      "Security Audit & Remediation", "API Documentation Update",
      "Frontend Component Library", "Database Performance Tuning"],
    "Marketing" := [
      "Q1 Social Media Campaign", "Annual Brand Refresh",
      "Product Hunt Launch Strategy", "Content Marketing Pipeline"],
    "Product" := ["User Interview Insights", "Product Roadmap - H1 2026"],
    "Sales" := ["Enterprise Lead Tracking", "Q1 Sales Kickoff Planning"],
    "Operations" := ["New Hire Onboarding Flow", "IT Asset Management"]
  ]

  const FALLBACK_POOL: seq<string> := ["General Initiative", "Team Tasks"]

  const MIN_PROJECTS := 2
  const MAX_PROJECTS := 5

  datatype Project = Project(projectId: string, name: string, teamId: string, projectType: string)

  /** randint(2, 5), the positions random.sample picks (in sample order) and
      one uuid4 string per selected name. */
  datatype ProjectDraws = ProjectDraws(numProjects: nat, picks: seq<nat>, ids: seq<string>)

  /** The template pool for a department, or the fallback pool. */
  function NamesPool(department: string): seq<string> {
    if department in TEMPLATES then TEMPLATES[department] else FALLBACK_POOL
  }

  /** Every pool holds two to six pairwise distinct names. */
  lemma PoolsAreDistinct(department: string)
    ensures 2 <= |NamesPool(department)| <= 6
    ensures Distinct(NamesPool(department))
  {
  }

  predicate ProjectDrawsOk(department: string, d: ProjectDraws) {
    var pool := NamesPool(department);
    && MIN_PROJECTS <= d.numProjects <= MAX_PROJECTS
    && |d.picks| == Min(d.numProjects, |pool|)
    && (forall k :: 0 <= k < |d.picks| ==> d.picks[k] < |pool|)
    && Distinct(d.picks)
    && |d.ids| == |d.picks|
  }

  /** random.sample(names_pool, k): the names at the picked positions. */
  function SelectedNames(pool: seq<string>, picks: seq<nat>): (names: seq<string>)
    requires forall k :: 0 <= k < |picks| ==> picks[k] < |pool|
    requires Distinct(pool) && Distinct(picks)
    ensures |names| == |picks|
    ensures forall k :: 0 <= k < |names| ==> names[k] in pool
    ensures Distinct(names)
  {
    seq(|picks|, k requires 0 <= k < |picks| => pool[picks[k]])
  }

  /** What generate_for_team returns, as a function of its draws. */
  function ProjectsFor(teamId: string, department: string, d: ProjectDraws): (ps: seq<Project>)
    requires ProjectDrawsOk(department, d)
    ensures |ps| == Min(d.numProjects, |NamesPool(department)|)
    ensures MIN_PROJECTS <= |ps| <= MAX_PROJECTS && |ps| <= |NamesPool(department)|
    ensures forall k :: 0 <= k < |ps| ==>
      ps[k].teamId == teamId && ps[k].projectType == department &&
      ps[k].projectId == d.ids[k] && ps[k].name in NamesPool(department)
    ensures forall a, b :: 0 <= a < b < |ps| ==> ps[a].name != ps[b].name
  {
    PoolsAreDistinct(department);
    var names := SelectedNames(NamesPool(department), d.picks);
    seq(|names|, k requires 0 <= k < |names| => Project(d.ids[k], names[k], teamId, department))
  }

  /** generate_for_team: one project per selected name, in sample order. */
  method GenerateForTeam(teamId: string, department: string, d: ProjectDraws) returns (projects: seq<Project>)
    requires ProjectDrawsOk(department, d)
    ensures projects == ProjectsFor(teamId, department, d)
  {
    projects := [];
    var namesPool := NamesPool(department);
    PoolsAreDistinct(department);
    var selectedNames := SelectedNames(namesPool, d.picks);
    for i := 0 to |selectedNames|
      invariant |projects| == i
      invariant forall k :: 0 <= k < i ==> projects[k] == ProjectsFor(teamId, department, d)[k]
    {
      projects := projects + [Project(d.ids[i], selectedNames[i], teamId, department)];
    }
  }

  /** Pools of two names always give exactly two projects: Sales, Product,
      Operations and any department without a template. */
  lemma TwoNamePoolsGiveTwoProjects(teamId: string, department: string, d: ProjectDraws)
    requires ProjectDrawsOk(department, d)
    requires department in {"Sales", "Product", "Operations"} || department !in TEMPLATES
    ensures |ProjectsFor(teamId, department, d)| == 2
    ensures department !in TEMPLATES ==>
      forall k :: 0 <= k < 2 ==> ProjectsFor(teamId, department, d)[k].name in FALLBACK_POOL
  {
  }

  /** Marketing's pool of four caps its projects at four; Engineering's
      six never cap the drawn count. */
  lemma LargePoolCounts(teamId: string, d: ProjectDraws)
    ensures ProjectDrawsOk("Marketing", d) ==> 2 <= |ProjectsFor(teamId, "Marketing", d)| <= 4
    ensures ProjectDrawsOk("Engineering", d) ==> |ProjectsFor(teamId, "Engineering", d)| == d.numProjects
  {
  }
}
