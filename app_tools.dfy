/**
 * The tool layer of the `app` package: four thin wrappers over the
 * database functions, and the registry `TOOLS` through which the executor
 * reaches them. The registry is the allowlist: a tool name that is not a
 * key here can never be invoked.
 */
module AppTools {
  import opened Py

  /**
   * The database functions the wrappers call (`execute_raw_sql` and the
   * three `fetch_*` queries); each may return rows or raise.
   */
  datatype Db = Db(
    executeRawSql: Value -> Result<Value>,
    fetchEmployeesByDepartment: Value -> Result<Value>,
    fetchProjectsByStatus: Value -> Result<Value>,
    fetchIssuesByPriority: Value -> Result<Value>)

  /** The wrappers, one per registry entry. */
  datatype Tool = SqlQuery | EmployeesByDepartment | ProjectsByStatus | IssuesByPriority
  {
    /** The Python function's name, which is also its registry key. */
    function Name(): string
    {
      match this
      case SqlQuery => "run_sql_query"
      case EmployeesByDepartment => "get_employees_by_department"
      case ProjectsByStatus => "get_projects_by_status"
      case IssuesByPriority => "get_issues_by_priority"
    }
  }

  /** `run_sql_query(query)`: the text goes to the database as it is. */
  function RunSqlQuery(db: Db, query: Value): Result<Value>
  {
    db.executeRawSql(query)
  }

  function GetEmployeesByDepartment(db: Db, department: Value): Result<Value>
  {
    db.fetchEmployeesByDepartment(department)
  }

  function GetProjectsByStatus(db: Db, status: Value): Result<Value>
  {
    db.fetchProjectsByStatus(status)
  }

  function GetIssuesByPriority(db: Db, priority: Value): Result<Value>
  {
    db.fetchIssuesByPriority(priority)
  }

  /** Calling the registered function with its single argument. */
  function Call(db: Db, tool: Tool, arg: Value): Result<Value>
  {
    match tool
    case SqlQuery => RunSqlQuery(db, arg)
    case EmployeesByDepartment => GetEmployeesByDepartment(db, arg)
    case ProjectsByStatus => GetProjectsByStatus(db, arg)
    case IssuesByPriority => GetIssuesByPriority(db, arg)
  }

  /** `TOOLS`. */
  const Tools: map<string, Tool> := map[
    "run_sql_query" := SqlQuery,
    "get_employees_by_department" := EmployeesByDepartment,
    "get_projects_by_status" := ProjectsByStatus,
    "get_issues_by_priority" := IssuesByPriority]

  /** The registry has exactly four entries, each under the name of the wrapper it holds. */
  lemma RegistryNamesWrappers()
    ensures Tools.Keys == {"run_sql_query", "get_employees_by_department", "get_projects_by_status", "get_issues_by_priority"}
    ensures forall name :: name in Tools ==> Tools[name].Name() == name
    ensures forall t: Tool :: t.Name() in Tools && Tools[t.Name()] == t
  {
  }

  /**
   * Each wrapper hands its argument, unchanged, to the database function
   * of the same purpose and returns (or raises) what that returns; the
   * raw SQL wrapper applies no check of its own to the statement, so even
   * a `DROP` reaches the database function.
   */
  lemma WrappersForward(db: Db, arg: Value)
    ensures Call(db, SqlQuery, arg) == db.executeRawSql(arg)
    ensures Call(db, EmployeesByDepartment, arg) == db.fetchEmployeesByDepartment(arg)
    ensures Call(db, ProjectsByStatus, arg) == db.fetchProjectsByStatus(arg)
    ensures Call(db, IssuesByPriority, arg) == db.fetchIssuesByPriority(arg)
    ensures Call(db, Tools["run_sql_query"], Str("DROP TABLE employees")) == db.executeRawSql(Str("DROP TABLE employees"))
  {
  }
}
