/**
 * The tool layer of the legacy top-level package: three wrappers over the
 * database's fetch functions and the registry `TOOLS`, the sandbox the
 * executor checks. Unlike the `app` package there is no raw SQL tool.
 */
module McpTools {
  import opened Py

  /** The three `fetch_*` database functions; each may return rows or raise. */
  datatype Db = Db(
    fetchEmployeesByDepartment: Value -> Result<Value>,
    fetchProjectsByStatus: Value -> Result<Value>,
    fetchIssuesByPriority: Value -> Result<Value>)

  /** The wrappers, one per registry entry. */
  datatype Tool = EmployeesByDepartment | ProjectsByStatus | IssuesByPriority
  {
    /** The registry key under which the wrapper is found. */
    function Name(): string
    {
      match this
      case EmployeesByDepartment => "get_employees_by_department"
      case ProjectsByStatus => "get_projects_by_status"
      case IssuesByPriority => "get_issues_by_priority"
    }
  }

  function McpGetEmployeesByDepartment(db: Db, department: Value): Result<Value>
  {
    db.fetchEmployeesByDepartment(department)
  }

  function McpGetProjectsByStatus(db: Db, status: Value): Result<Value>
  {
    db.fetchProjectsByStatus(status)
  }

  function McpGetIssuesByPriority(db: Db, priority: Value): Result<Value>
  {
    db.fetchIssuesByPriority(priority)
  }

  /** Calling the registered function with its single argument. */
  function Call(db: Db, tool: Tool, arg: Value): Result<Value>
  {
    match tool
    case EmployeesByDepartment => McpGetEmployeesByDepartment(db, arg)
    case ProjectsByStatus => McpGetProjectsByStatus(db, arg)
    case IssuesByPriority => McpGetIssuesByPriority(db, arg)
  }

  /** `TOOLS`. */
  const Tools: map<string, Tool> := map[
    "get_employees_by_department" := EmployeesByDepartment,
    "get_projects_by_status" := ProjectsByStatus,
    "get_issues_by_priority" := IssuesByPriority]

  /**
   * The sandbox holds exactly three entries, each under its wrapper's
   * name, and no way to run SQL text.
   */
  lemma RegistryNamesWrappers()
    ensures Tools.Keys == {"get_employees_by_department", "get_projects_by_status", "get_issues_by_priority"}
    ensures forall name :: name in Tools ==> Tools[name].Name() == name
    ensures forall t: Tool :: t.Name() in Tools && Tools[t.Name()] == t
    ensures "run_sql_query" !in Tools
  {
  }

  /** Each wrapper hands its argument unchanged to its database function and returns (or raises) what that returns. */
  lemma WrappersForward(db: Db, arg: Value)
    ensures Call(db, EmployeesByDepartment, arg) == db.fetchEmployeesByDepartment(arg)
    ensures Call(db, ProjectsByStatus, arg) == db.fetchProjectsByStatus(arg)
    ensures Call(db, IssuesByPriority, arg) == db.fetchIssuesByPriority(arg)
  {
  }
}
