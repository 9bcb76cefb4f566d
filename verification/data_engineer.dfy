/** The data-engineer tools of agents/data_engineer.py: a read path guarded
    by a keyword blocklist, a DDL path guarded by a denylist, a DML path with
    no guard, the text table of a query result and the integrity report.
    Database round trips are parameters: the rows a query fetched, and the
    outcome of executing a statement. */
module DataEngineer {
  import opened Text

  /** What executing a statement on the pool did: the status string the
      driver returned, or the message of the exception it raised. */
  datatype Outcome = Done(status: string) | Raised(message: string)

  /** One fetched row: its column names and its values, already rendered
      with `str`. */
  datatype Record = Record(columns: seq<string>, values: seq<string>)

  const SecurityAlert: string :=
    "\U{274C} SECURITY ALERT: This tool is for READ-ONLY queries. Use 'execute_ddl' or 'execute_dml' for modifications."
  const NoResults: string := "No results found."
  const SqlErrorPrefix: string := "\U{274C} SQL Error: "

  /** The words whose presence anywhere in the lower-cased query refuses a
      read. */
  const ReadBlocklist: seq<string> := ["drop", "delete", "update", "insert", "alter", "create"]

  /** The statements the DDL tool refuses, matched as substrings. */
  const DdlDenylist: seq<string> := ["drop table expenses", "drop table income"]

  predicate ReadBlocked(query: string) {
    AnyHit(Lower(query), ReadBlocklist)
  }

  predicate DdlBlocked(query: string) {
    AnyHit(Lower(query), DdlDenylist)
  }

  /** The refusal message of the DDL tool, which quotes the query. */
  function SafetyBlock(query: string): string {
    "\U{274C} SAFETY BLOCK: The query '" + query + "' is flagged as destructive to core financial data."
  }

  // ----- Result table -----

  /** Lines joined with a newline after each one. */
  function Unlines(lines: seq<string>): string
    decreases |lines|
  {
    if |lines| == 0 then "" else Unlines(lines[..|lines| - 1]) + lines[|lines| - 1] + "\n"
  }

  /** The table of a non-empty result: the first row's column names, a
      rule of fifty dashes, and one line of values per row. */
  function TableLines(rows: seq<Record>): (ls: seq<string>)
    requires |rows| > 0
    ensures |ls| == |rows| + 2
    ensures ls[0] == Join(rows[0].columns, " | ") && ls[1] == Repeat('-', 50)
    ensures forall i :: 0 <= i < |rows| ==> ls[i + 2] == Join(rows[i].values, " | ")
  {
    [Join(rows[0].columns, " | "), Repeat('-', 50)]
      + seq(|rows|, i requires 0 <= i < |rows| => Join(rows[i].values, " | "))
  }

  /** The header and rule, then each row appended in turn. */
  method FormatRows(rows: seq<Record>) returns (res: string)
    requires |rows| > 0
    ensures res == Unlines(TableLines(rows))
  {
    ghost var ls := TableLines(rows);
    res := Join(rows[0].columns, " | ") + "\n" + Repeat('-', 50) + "\n";
    HeadLines(ls);
    var i := 0;
    while i < |rows|
      invariant 0 <= i <= |rows|
      invariant res == Unlines(ls[..i + 2])
    {
      UnlinesStep(ls, i + 2);
      res := res + Join(rows[i].values, " | ") + "\n";
      i := i + 1;
    }
    assert ls[..|rows| + 2] == ls;
  }

  /** `run_sql_query`: a refused query never reaches the pool; an accepted
      one returns the fetched rows as text. `acquired` tells whether a
      connection was taken. */
  method RunSqlQuery(query: string, fetched: seq<Record>) returns (out: string, acquired: bool)
    ensures acquired <==> !ReadBlocked(query)
    ensures ReadBlocked(query) ==> out == SecurityAlert
    ensures !ReadBlocked(query) && fetched == [] ==> out == NoResults
    ensures !ReadBlocked(query) && fetched != [] ==> out == Unlines(TableLines(fetched))
  {
    if ReadBlocked(query) {
      return SecurityAlert, false;
    }
    acquired := true;
    if |fetched| == 0 {
      out := NoResults;
    } else {
      out := FormatRows(fetched);
    }
  }

  /** `execute_ddl`: the justification is accepted and never looked at;
      execution errors come back as text. */
  function ExecuteDdl(query: string, justification: string, run: Outcome): (out: string)
    ensures DdlBlocked(query) ==> out == SafetyBlock(query)
    ensures !DdlBlocked(query) && run.Raised? ==> out == SqlErrorPrefix + run.message
    ensures !DdlBlocked(query) && run.Done? ==> out == "\U{2705} DDL Executed successfully: " + query
  {
    if DdlBlocked(query) then SafetyBlock(query)
    else match run
      case Raised(m) => SqlErrorPrefix + m
      case Done(_) => "\U{2705} DDL Executed successfully: " + query
  }

  /** `execute_dml`: no guard at all; errors come back as text. */
  function ExecuteDml(query: string, run: Outcome): (out: string)
    ensures run.Raised? ==> out == SqlErrorPrefix + run.message
    ensures run.Done? ==> out == "\U{2705} DML Executed: " + run.status
  {
    match run
    case Raised(m) => SqlErrorPrefix + m
    case Done(s) => "\U{2705} DML Executed: " + s
  }

  // ----- Integrity report -----

  const ReportHeading: string := "Health Check Report:\n"
  const IncomeOk: string := "\U{2705} Income Integrity: OK\n"
  const ExpenseOk: string := "\U{2705} Expense Integrity: OK\n"

  const WarningPrefix: string := "\U{26A0}\U{FE0F} FOUND "

  function IncomeWarning(n: nat): string {
    WarningPrefix + NatToString(n)
      + " income records with negative amounts! This violates accounting principles.\n"
  }

  function ExpenseWarning(n: nat): string {
    WarningPrefix + NatToString(n)
      + " expense records with negative amounts! (Could be refunds, please verify).\n"
  }

  /** The income section: a warning when some income is negative. */
  function IncomeSection(n: int): string {
    if n > 0 then IncomeWarning(n) else IncomeOk
  }

  /** The expense section: a warning when some expense is negative. */
  function ExpenseSection(n: int): string {
    if n > 0 then ExpenseWarning(n) else ExpenseOk
  }

  /** `validate_financial_integrity` from the two counts of negative
      amounts. */
  method ValidateFinancialIntegrity(negIncome: int, negExpense: int) returns (report: string)
    ensures report == ReportHeading + IncomeSection(negIncome) + ExpenseSection(negExpense)
  {
    report := ReportHeading;
    if negIncome > 0 {
      report := report + IncomeWarning(negIncome);
    } else {
      report := report + IncomeOk;
    }
    if negExpense > 0 {
      report := report + ExpenseWarning(negExpense);
    } else {
      report := report + ExpenseOk;
    }
  }

  // ----- Properties -----

  /** Lines concatenate. */
  lemma {:induction false} UnlinesAppend(a: seq<string>, b: seq<string>)
    ensures Unlines(a + b) == Unlines(a) + Unlines(b)
    decreases |b|
  {
    if |b| == 0 {
      assert a + b == a;
    } else {
      var b' := b[..|b| - 1];
      assert (a + b)[..|a + b| - 1] == a + b';
      UnlinesAppend(a, b');
    }
  }

  /** One more line, with its newline. */
  lemma UnlinesStep(ls: seq<string>, n: nat)
    requires n < |ls|
    ensures Unlines(ls[..n + 1]) == Unlines(ls[..n]) + ls[n] + "\n"
  {
    assert ls[..n + 1][..n] == ls[..n];
  }

  /** The first two lines, each with its newline. */
  lemma HeadLines(ls: seq<string>)
    requires |ls| >= 2
    ensures Unlines(ls[..2]) == ls[0] + "\n" + ls[1] + "\n"
  {
    var p := ls[..2];
    assert p[..1] == [ls[0]];
    assert [ls[0]][..0] == [];
    assert Unlines([ls[0]]) == ls[0] + "\n";
    assert Unlines(p) == Unlines(p[..1]) + p[1] + "\n";
  }

  /** Line `i`, with its newline, sits right after the lines before it. */
  lemma LineAt(ls: seq<string>, i: nat)
    requires i < |ls|
    ensures SliceAt(Unlines(ls), ls[i] + "\n", |Unlines(ls[..i])|)
  {
    assert ls == ls[..i] + [ls[i]] + ls[i + 1..];
    UnlinesAppend(ls[..i] + [ls[i]], ls[i + 1..]);
    UnlinesAppend(ls[..i], [ls[i]]);
    assert [ls[i]][..0] == [];
  }

  /** The table text opens with the column names and the rule, and every
      row's values appear as a line of their own, in row order. */
  lemma TableShape(rows: seq<Record>)
    requires |rows| > 0
    ensures var out := Unlines(TableLines(rows));
            var head := Join(rows[0].columns, " | ") + "\n" + Repeat('-', 50) + "\n";
            |head| <= |out| && out[..|head|] == head
    ensures forall i :: 0 <= i < |rows| ==>
              Contains(Unlines(TableLines(rows)), Join(rows[i].values, " | ") + "\n")
  {
    var ls := TableLines(rows);
    var out := Unlines(ls);
    assert ls == ls[..2] + ls[2..];
    UnlinesAppend(ls[..2], ls[2..]);
    HeadLines(ls);
    forall i | 0 <= i < |rows|
      ensures Contains(out, Join(rows[i].values, " | ") + "\n")
    {
      LineAt(ls, i + 2);
    }
  }

  /** A read that mentions any blocked word anywhere is refused, so every
      UPDATE is. */
  lemma BlockedWordRefused(query: string, k: nat)
    requires k < |ReadBlocklist| && Contains(Lower(query), ReadBlocklist[k])
    ensures ReadBlocked(query)
  {
    AnyHitIff(Lower(query), ReadBlocklist);
  }

  lemma UpdateRefused(query: string)
    requires Contains(Lower(query), "update")
    ensures ReadBlocked(query)
  {
    BlockedWordRefused(query, 2);
  }

  /** "SELECT * FROM expenses" passes the read gate. */
  lemma SelectAllPasses()
    ensures !ReadBlocked("SELECT * FROM expenses")
  {
    SelectAllLower();
    SelectAllNoBlockedWord();
  }

  lemma SelectAllNoBlockedWord()
    ensures !AnyHit("select * from expenses", ReadBlocklist)
  {
    NoHitByMissingChars("select * from expenses", ReadBlocklist, [0, 0, 0, 0, 0, 3], 0);
  }

  lemma SelectAllLower()
    ensures Lower("SELECT * FROM expenses") == "select * from expenses"
  {
  }

  /** "DROP TABLE expenses" is refused on the read path. */
  lemma DropTableRefused()
    ensures ReadBlocked("DROP TABLE expenses")
  {
    var t := "drop table expenses";
    assert Lower("DROP TABLE expenses") == t;
    ContainsAt(t, "drop", 0);
    AnyHitIff(t, ReadBlocklist);
  }

  /** The gate over-blocks: a column named created_at contains "create". */
  lemma CreatedAtRefused()
    ensures ReadBlocked("SELECT created_at FROM expenses")
  {
    CreatedAtLower();
    CreatedAtHit();
  }

  lemma CreatedAtLower()
    ensures Lower("SELECT created_at FROM expenses") == "select created_at from expenses"
  {
  }

  lemma CreatedAtHit()
    ensures AnyHit("select created_at from expenses", ReadBlocklist)
  {
    var t := "select created_at from expenses";
    assert t[7] == 'c';
    assert t[8] == 'r';
    assert t[9] == 'e';
    assert t[10] == 'a';
    assert t[11] == 't';
    assert t[12] == 'e';
    assert t[7..13] == "create";
    ContainsAt(t, "create", 7);
    AnyHitIff(t, ReadBlocklist);
  }

  /** The DDL verdict does not depend on the justification, and a blocked
      statement gives the same answer whatever the database would do. */
  lemma DdlIgnoresJustification(query: string, j1: string, j2: string, run: Outcome)
    ensures ExecuteDdl(query, j1, run) == ExecuteDdl(query, j2, run)
    ensures DdlBlocked(query) ==> forall r: Outcome :: ExecuteDdl(query, j1, r) == SafetyBlock(query)
  {
  }

  /** The first character tells the three DDL answers apart: a tick only
      for an executed statement, a cross for a block or an error. */
  lemma DdlAnswerKind(query: string, justification: string, run: Outcome)
    ensures var out := ExecuteDdl(query, justification, run);
            |out| > 0 && (out[0] == '\U{2705}' <==> !DdlBlocked(query) && run.Done?)
  {
  }

  /** The DML path has no denylist: a statement that runs is reported as
      executed whatever it says. */
  lemma DmlUnguarded(query: string, status: string)
    ensures ExecuteDml(query, Done(status))[0] == '\U{2705}'
    ensures ExecuteDml(query, Raised(status))[..|SqlErrorPrefix|] == SqlErrorPrefix
  {
  }

  /** The denylist is literal: a guarded drop of the expenses table passes. */
  lemma DropIfExistsPasses()
    ensures !DdlBlocked("DROP TABLE IF EXISTS expenses")
  {
    DropIfExistsLower();
    var t := "drop table if exists expenses";
    DropIfExistsMissesExpenses();
    MissingChar(t, "drop table income", 13);
    AnyHitIff(t, DdlDenylist);
  }

  lemma DropIfExistsLower()
    ensures Lower("DROP TABLE IF EXISTS expenses") == "drop table if exists expenses"
  {
  }

  /** No offset of the guarded statement spells "drop table expenses". */
  lemma DropIfExistsMissesExpenses()
    ensures !Contains("drop table if exists expenses", "drop table expenses")
  {
    var t := "drop table if exists expenses";
    var k := "drop table expenses";
    forall p: nat | p <= |t|
      ensures !SliceAt(t, k, p)
    {
      if p == 0 {
        assert t[11] == 'i' && k[11] == 'e';
        MismatchAt(t, k, 0, 11);
      }
      else if p <= 10 { MismatchAt(t, k, p, 0); }
    }
  }

  /** ... and a table whose name merely starts with "income" is blocked. */
  lemma IncomeLookalikeBlocked()
    ensures DdlBlocked("drop table income_2024")
  {
    var t := "drop table income_2024";
    LowerOfLower(t);
    ContainsAt(t, "drop table income", 0);
    AnyHitIff(t, DdlDenylist);
  }

  /** Each section is the OK line exactly when its count is not
      positive. */
  lemma IntegritySections(n: int, m: int)
    ensures IncomeSection(n) == IncomeOk <==> n <= 0
    ensures ExpenseSection(m) == ExpenseOk <==> m <= 0
  {
    IncomeSectionOk(n);
    ExpenseSectionOk(m);
  }

  lemma IncomeSectionOk(n: int)
    ensures IncomeSection(n) == IncomeOk <==> n <= 0
  {
    if n > 0 {
      assert IncomeWarning(n)[0] == WarningPrefix[0] != IncomeOk[0];
    }
  }

  lemma ExpenseSectionOk(n: int)
    ensures ExpenseSection(n) == ExpenseOk <==> n <= 0
  {
    if n > 0 {
      assert ExpenseWarning(n)[0] == WarningPrefix[0] != ExpenseOk[0];
    }
  }

  /** An income warning carries the count in decimal, right after the
      prefix, and those digits read back as the count. */
  lemma WarningCarriesCount(n: nat)
    ensures |WarningPrefix| + |NatToString(n)| <= |IncomeWarning(n)|
    ensures IncomeWarning(n)[|WarningPrefix|..|WarningPrefix| + |NatToString(n)|] == NatToString(n)
    ensures DigitsValue(IncomeWarning(n)[|WarningPrefix|..|WarningPrefix| + |NatToString(n)|]) == n
  {
    NatToStringRoundTrip(n);
    var d := NatToString(n);
    var tail := " income records with negative amounts! This violates accounting principles.\n";
    assert IncomeWarning(n) == WarningPrefix + d + tail;
    assert (WarningPrefix + d + tail)[|WarningPrefix|..|WarningPrefix| + |d|] == d;
  }

}
