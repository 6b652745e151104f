/** The storage helper (src/utils/db_helpers.py): the text of the multi-row
    INSERT statement, and an in-memory relational store (table name to its
    rows, in insertion order) that single-row and batch inserts append to.
    A failing statement is reported to the caller (the source logs it and
    re-raises) and leaves the store as it was: nothing is committed. */
module Store {
  import opened Common

  datatype Value = Text(text: string) | Int(number: int) | Null

  type Row = seq<Value>

  /** The tables of the schema. Every statement of the run names one of
      them by a string literal; the store is keyed by this enumeration and
      TableName gives the name that goes into the SQL text. */
  datatype Table =
    | OrgTable | TagTable | UserTable | TeamTable | MembershipTable
    | ProjectTable | SectionTable | TaskTable | TaskTagTable | CommentTable

  function TableName(t: Table): string {
    match t
    case OrgTable => "organizations"
    case TagTable => "tags"
    case UserTable => "users"
    case TeamTable => "teams"
    case MembershipTable => "team_memberships"
    case ProjectTable => "projects"
    case SectionTable => "sections"
    case TaskTable => "tasks"
    case TaskTagTable => "task_tags"
    case CommentTable => "comments"
  }

  datatype DbError =
    | NoSuchTable(table: Table)
    | ArityMismatch(table: Table, placeholders: nat)

  /** What a statement does: it succeeds, or its error reaches the caller. */
  datatype Outcome = Pass | Fail(error: DbError)

  /** The tables the schema script creates. */
  const SCHEMA_TABLES: seq<Table> := [
    OrgTable, TagTable, UserTable, TeamTable, MembershipTable,
    ProjectTable, SectionTable, TaskTable, TaskTagTable, CommentTable
  ]

  const SEPARATOR := ", "

  /** One "?" per column, joined by ", ". */
  function Placeholders(columns: seq<string>): string {
    Join(seq(|columns|, _ => "?"), SEPARATOR)
  }

  /** The columns in order, joined by ", ". */
  function ColumnList(columns: seq<string>): string {
    Join(columns, SEPARATOR)
  }

  function InsertQuery(table: string, columns: seq<string>): string {
    "INSERT INTO " + table + " (" + ColumnList(columns) + ") VALUES (" + Placeholders(columns) + ")"
  }

  /** The placeholder list binds exactly one parameter per column and has
      the length "?, " repeated would give. */
  lemma {:induction false} PlaceholdersBindOnePerColumn(columns: seq<string>)
    ensures Occurrences(Placeholders(columns), '?') == |columns|
    ensures |Placeholders(columns)| == if columns == [] then 0 else 3 * |columns| - 2
    decreases |columns|
  {
    var n := |columns|;
    var qs := seq(n, _ => "?");
    if n >= 2 {
      var init := columns[..n - 1];
      assert qs[..n - 1] == seq(n - 1, _ => "?");
      PlaceholdersBindOnePerColumn(init);
      assert Placeholders(columns) == Placeholders(init) + SEPARATOR + "?";
      OccurrencesAppend(Placeholders(init), SEPARATOR, '?');
      OccurrencesAppend(Placeholders(init) + SEPARATOR, "?", '?');
      assert Occurrences(SEPARATOR, '?') == 0 by {
        assert SEPARATOR[..1] == [','];
      }
      assert Occurrences("?", '?') == 1;
    } else if n == 1 {
      assert Placeholders(columns) == "?";
      assert "?"[..0] == [];
    }
  }

  /** The whole statement binds exactly one parameter per column when the
      table and column names carry no "?" themselves. */
  lemma InsertQueryBindsOnePerColumn(table: string, columns: seq<string>)
    requires Occurrences(table, '?') == 0
    requires Occurrences(ColumnList(columns), '?') == 0
    ensures Occurrences(InsertQuery(table, columns), '?') == |columns|
  {
    var a := "INSERT INTO ";
    var b := " (";
    var c := ") VALUES (";
    var d := ")";
    NoQuestionMark(a);
    NoQuestionMark(b);
    NoQuestionMark(c);
    NoQuestionMark(d);
    PlaceholdersBindOnePerColumn(columns);
    var cols := ColumnList(columns);
    var ph := Placeholders(columns);
    OccurrencesAppend(a, table, '?');
    OccurrencesAppend(a + table, b, '?');
    OccurrencesAppend(a + table + b, cols, '?');
    OccurrencesAppend(a + table + b + cols, c, '?');
    OccurrencesAppend(a + table + b + cols + c, ph, '?');
    OccurrencesAppend(a + table + b + cols + c + ph, d, '?');
  }

  lemma {:induction false} NoQuestionMark(s: string)
    requires forall k :: 0 <= k < |s| ==> s[k] != '?'
    ensures Occurrences(s, '?') == 0
    decreases |s|
  {
    if s != [] {
      NoQuestionMark(s[..|s| - 1]);
    }
  }

  /** Index of the last ", " in s, if any (scanning from the right). */
  function LastSeparator(s: string): (r: Option<nat>)
    ensures r.Some? ==> r.value + 2 <= |s| && s[r.value..r.value + 2] == SEPARATOR
  {
    if |s| < 2 then None
    else if s[|s| - 2..] == SEPARATOR then Some(|s| - 2)
    else LastSeparator(s[..|s| - 1])
  }

  /** Splits a ", "-joined column list back into its columns. */
  function SplitColumns(s: string): seq<string>
    decreases |s|
  {
    match LastSeparator(s)
    case None => [s]
    case Some(k) => SplitColumns(s[..k]) + [s[k + 2..]]
  }

  predicate NoComma(s: string) {
    forall k :: 0 <= k < |s| ==> s[k] != ','
  }

  lemma {:induction false} LastSeparatorAfter(prefix: string, last: string)
    requires NoComma(last)
    ensures LastSeparator(prefix + SEPARATOR + last) == Some(|prefix|)
    decreases |last|
  {
    var s := prefix + SEPARATOR + last;
    if last == [] {
      assert s[|s| - 2..] == SEPARATOR;
    } else {
      assert s[|s| - 1] == last[|last| - 1];
      assert s[|s| - 2..] != SEPARATOR by {
        assert s[|s| - 2..][1] == s[|s| - 1];
        if |last| >= 2 {
          assert s[|s| - 2] == last[|last| - 2];
        } else {
          assert s[|s| - 2] == ' ';
        }
      }
      assert s[..|s| - 1] == prefix + SEPARATOR + last[..|last| - 1];
      LastSeparatorAfter(prefix, last[..|last| - 1]);
    }
  }

  lemma {:induction false} NoSeparatorInside(s: string)
    requires NoComma(s)
    ensures LastSeparator(s) == None
    decreases |s|
  {
    if |s| >= 2 {
      assert s[|s| - 2..][0] == s[|s| - 2];
      NoSeparatorInside(s[..|s| - 1]);
    }
  }

  /** The column list can be read back: for a non-empty list of column
      names that contain no comma, splitting the joined text returns the
      columns in their original order. */
  lemma {:induction false} ColumnListRoundTrip(columns: seq<string>)
    requires |columns| >= 1
    requires forall i :: 0 <= i < |columns| ==> NoComma(columns[i])
    ensures SplitColumns(ColumnList(columns)) == columns
    decreases |columns|
  {
    var n := |columns|;
    if n == 1 {
      NoSeparatorInside(columns[0]);
    } else {
      var init := columns[..n - 1];
      LastSeparatorAfter(ColumnList(init), columns[n - 1]);
      var s := ColumnList(columns);
      assert s == ColumnList(init) + SEPARATOR + columns[n - 1];
      assert s[..|ColumnList(init)|] == ColumnList(init);
      assert s[|ColumnList(init)| + 2..] == columns[n - 1];
      ColumnListRoundTrip(init);
    }
  }

  /** The outcome of running an INSERT with `arity` placeholders for each of
      `rows`: the table must exist and every row must supply one value per
      placeholder. */
  function InsertOutcome(tables: map<Table, seq<Row>>, table: Table, arity: nat, rows: seq<Row>): Outcome {
    if table !in tables then Fail(NoSuchTable(table))
    else if exists r :: r in rows && |r| != arity then Fail(ArityMismatch(table, arity))
    else Pass
  }

  /** The store after its schema script ran: every table empty. */
  function EmptySchema(): (m: map<Table, seq<Row>>)
    ensures forall t :: t in SCHEMA_TABLES <==> t in m
    ensures forall t :: t in m ==> m[t] == []
  {
    map t | t in SCHEMA_TABLES :: []
  }

  class Database {
    var tables: map<Table, seq<Row>>

    constructor ()
      ensures tables == map[]
    {
      tables := map[];
    }

    /** Removing the store file: nothing is left. */
    method Delete()
      modifies this
      ensures tables == map[]
    {
      tables := map[];
    }

    /** execute_script: a missing schema file is logged and returns
        silently; otherwise the script creates the schema's tables, empty. */
    method ExecuteScript(schemaFound: bool)
      modifies this
      ensures tables == if schemaFound then old(tables) + EmptySchema() else old(tables)
    {
      if !schemaFound {
        return;
      }
      tables := tables + EmptySchema();
    }

    /** batch_insert: a no-op on no rows; otherwise one INSERT with a
        placeholder per column runs for every row, all or nothing. */
    method BatchInsert(table: Table, columns: seq<string>, rows: seq<Row>) returns (res: Outcome)
      modifies this
      ensures rows == [] ==> res == Pass
      ensures rows != [] ==> res == InsertOutcome(old(tables), table, |columns|, rows)
      ensures rows != [] && res.Pass? ==> tables == old(tables)[table := old(tables)[table] + rows]
      ensures rows == [] || res.Fail? ==> tables == old(tables)
    {
      if rows == [] {
        return Pass;
      }
      var placeholders := Placeholders(columns);
      var bound := Occurrences(placeholders, '?');
      PlaceholdersBindOnePerColumn(columns);
      if table !in tables {
        return Fail(NoSuchTable(table));
      }
      if exists r :: r in rows && |r| != bound {
        return Fail(ArityMismatch(table, bound));
      }
      tables := tables[table := tables[table] + rows];
      res := Pass;
    }

    /** execute of a single-row INSERT into `table` naming `columns`, one
        placeholder each: appends exactly the one row `params`. */
    method Execute(table: Table, columns: seq<string>, params: Row) returns (res: Outcome)
      modifies this
      ensures res == InsertOutcome(old(tables), table, |columns|, [params])
      ensures res.Pass? ==> tables == old(tables)[table := old(tables)[table] + [params]]
      ensures res.Fail? ==> tables == old(tables)
    {
      if table !in tables {
        return Fail(NoSuchTable(table));
      }
      if |params| != |columns| {
        return Fail(ArityMismatch(table, |columns|));
      }
      tables := tables[table := tables[table] + [params]];
      res := Pass;
    }
  }
}
