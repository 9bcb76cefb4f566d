/** The dependency container of core/container.py: a lazily built, cached
    set of finance dependencies and a lazily opened, cached database pool.
    The source keeps both on class attributes; here they are the fields of
    one `Container` object. */
module DependencyContainer {
  import opened Wrappers
  import opened Model

  /** The expense and income repositories handed to the finance agent. */
  class FinanceDependencies {
    constructor () {}
  }

  /** A connection pool, opened on a database URL. */
  class Pool {
    const url: string
    var closed: bool

    constructor (url: string)
      ensures this.url == url && !closed
    {
      this.url := url;
      closed := false;
    }
  }

  /** What the data-engineer agent is handed: the pool. */
  datatype DataDependencies = DataDependencies(pool: Pool)

  const MissingDbUrl: Error := ValueError("SUPABASE_DB_URL is required for Data Engineer Agent.")

  /** `not db_url`: an unset variable and an empty one both count as
      missing. */
  predicate Unset(dbUrl: Option<string>) {
    dbUrl.None? || dbUrl.value == ""
  }

  class Container {
    var financeDeps: Option<FinanceDependencies>
    var dbPool: Option<Pool>

    /** Both caches start empty. */
    constructor ()
      ensures financeDeps == None && dbPool == None
    {
      financeDeps := None;
      dbPool := None;
    }

    /** `get_finance_dependencies`: builds the dependencies only when none
        are cached, and otherwise hands back the cached ones. */
    method GetFinanceDependencies() returns (d: FinanceDependencies)
      modifies this
      ensures old(financeDeps).Some? ==> d == old(financeDeps).value
      ensures old(financeDeps).None? ==> fresh(d)
      ensures financeDeps == Some(d)
      ensures dbPool == old(dbPool)
    {
      if financeDeps.None? {
        var built := new FinanceDependencies();
        financeDeps := Some(built);
      }
      d := financeDeps.value;
    }

    /** `reset_dependencies`: forgets the finance dependencies only. */
    method ResetDependencies()
      modifies this
      ensures financeDeps == None
      ensures dbPool == old(dbPool)
    {
      financeDeps := None;
    }

    /** `get_db_pool`: opens a pool on the configured URL the first time
        and reuses it afterwards; with no URL configured it raises
        `ValueError` and nothing is cached. */
    method GetDbPool(dbUrl: Option<string>) returns (r: Result<Pool, Error>)
      modifies this
      ensures old(dbPool).Some? ==> r == Success(old(dbPool).value) && dbPool == old(dbPool)
      ensures old(dbPool).None? && Unset(dbUrl) ==> r == Failure(MissingDbUrl) && dbPool == None
      ensures old(dbPool).None? && !Unset(dbUrl) ==>
                r.Success? && fresh(r.value) && r.value.url == dbUrl.value && !r.value.closed
                && dbPool == Some(r.value)
      ensures financeDeps == old(financeDeps)
    {
      if dbPool.None? {
        if Unset(dbUrl) {
          return Failure(MissingDbUrl);
        }
        var p := new Pool(dbUrl.value);
        dbPool := Some(p);
      }
      r := Success(dbPool.value);
    }

    /** `get_data_dependencies`: the pool, wrapped. */
    method GetDataDependencies(dbUrl: Option<string>) returns (r: Result<DataDependencies, Error>)
      modifies this
      ensures old(dbPool).Some? ==> r == Success(DataDependencies(old(dbPool).value))
      ensures old(dbPool).None? && Unset(dbUrl) ==> r == Failure(MissingDbUrl) && dbPool == None
      ensures old(dbPool).None? && !Unset(dbUrl) ==>
                r.Success? && fresh(r.value.pool) && r.value.pool.url == dbUrl.value && !r.value.pool.closed
      ensures r.Success? ==> dbPool == Some(r.value.pool)
      ensures financeDeps == old(financeDeps)
    {
      var pool :- GetDbPool(dbUrl);
      r := Success(DataDependencies(pool));
    }

    /** `close`: closes and forgets an open pool; without one it does
        nothing. */
    method Close()
      modifies this, if dbPool.Some? then {dbPool.value} else {}
      ensures dbPool == None
      ensures old(dbPool).Some? ==> old(dbPool).value.closed
      ensures old(dbPool).None? ==> unchanged(this)
      ensures financeDeps == old(financeDeps)
    {
      if dbPool.Some? {
        dbPool.value.closed := true;
        dbPool := None;
      }
    }
  }

  /** Two gets with no reset between them return the same object; a reset
      between them makes the second one build a new object. */
  method CachingScenario() returns (same: bool, rebuilt: bool)
    ensures same && rebuilt
  {
    var c := new Container();
    var first := c.GetFinanceDependencies();
    var second := c.GetFinanceDependencies();
    same := first == second;
    c.ResetDependencies();
    var third := c.GetFinanceDependencies();
    rebuilt := third != first;
  }

  /** A failed pool request leaves the container as it was, so a later
      request with a URL opens the pool, and every request after that
      reuses it until `close`. */
  method PoolScenario() returns (failedFirst: bool, reused: bool, closedAfter: bool)
    ensures failedFirst && reused && closedAfter
  {
    var c := new Container();
    var r0 := c.GetDbPool(None);
    failedFirst := r0 == Failure(MissingDbUrl) && c.dbPool == None;
    var r1 := c.GetDbPool(Some("postgres://ledger"));
    var r2 := c.GetDbPool(None);
    reused := r1.Success? && r2 == r1;
    var p := r1.value;
    c.Close();
    closedAfter := p.closed && c.dbPool == None;
  }
}
