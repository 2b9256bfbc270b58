/**
 * The tables of drizzle/schema.ts as Dafny datatypes: one enumeration per
 * `mysqlEnum` column and one record per table row or insert shape.
 * Timestamps are opaque integers (milliseconds); ids are the tables'
 * auto-increment integers.
 */
module Schema {
  import opened Wrappers

  /** The status column of both `city_projects` and `llm_tasks`. */
  datatype Lifecycle = Pending | InProgress | Completed | Failed

  /** The `llmRole` column of `llm_tasks`. */
  datatype TaskRole = Architect | Frontend | Backend | Database | Qa

  /** The `role` column of `users`. */
  datatype UserRole = User | Admin

  /** Both status columns default to `pending`; the user role defaults to `user`. */
  const DefaultLifecycle: Lifecycle := Pending
  const DefaultUserRole: UserRole := User

  /** The value a `mysqlEnum` column stores for each constructor. */
  function LifecycleName(s: Lifecycle): string {
    match s
    case Pending => "pending"
    case InProgress => "in_progress"
    case Completed => "completed"
    case Failed => "failed"
  }

  function TaskRoleName(r: TaskRole): string {
    match r
    case Architect => "architect"
    case Frontend => "frontend"
    case Backend => "backend"
    case Database => "database"
    case Qa => "qa"
  }

  function UserRoleName(r: UserRole): string {
    match r
    case User => "user"
    case Admin => "admin"
  }

  /** Reads a stored status back; a string outside the enumeration has no status. */
  function ParseLifecycle(t: string): (r: Option<Lifecycle>)
    ensures r.Some? ==> LifecycleName(r.value) == t
    ensures r.None? ==> t !in {"pending", "in_progress", "completed", "failed"}
  {
    if t == "pending" then Some(Pending)
    else if t == "in_progress" then Some(InProgress)
    else if t == "completed" then Some(Completed)
    else if t == "failed" then Some(Failed)
    else None
  }

  function ParseTaskRole(t: string): (r: Option<TaskRole>)
    ensures r.Some? ==> TaskRoleName(r.value) == t
    ensures r.None? ==> t !in {"architect", "frontend", "backend", "database", "qa"}
  {
    if t == "architect" then Some(Architect)
    else if t == "frontend" then Some(Frontend)
    else if t == "backend" then Some(Backend)
    else if t == "database" then Some(Database)
    else if t == "qa" then Some(Qa)
    else None
  }

  function ParseUserRole(t: string): (r: Option<UserRole>)
    ensures r.Some? ==> UserRoleName(r.value) == t
    ensures r.None? ==> t != "user" && t != "admin"
  {
    if t == "user" then Some(User)
    else if t == "admin" then Some(Admin)
    else None
  }

  /** Every enumeration value survives a store-and-read round trip, so names are distinct. */
  lemma EnumNamesRoundTrip(s: Lifecycle, r: TaskRole, u: UserRole)
    ensures ParseLifecycle(LifecycleName(s)) == Some(s)
    ensures ParseTaskRole(TaskRoleName(r)) == Some(r)
    ensures ParseUserRole(UserRoleName(u)) == Some(u)
  {
  }

  /** A row of `users`; the nullable text columns are `Option`. */
  datatype UserRow = UserRow(
    id: int, openId: string, name: Option<string>, email: Option<string>,
    loginMethod: Option<string>, role: UserRole,
    createdAt: int, updatedAt: int, lastSignedIn: int)

  /** A row of `city_projects`; `userId` 0 marks an anonymous project. */
  datatype ProjectRow = ProjectRow(
    id: int, userId: int, name: string, prompt: string, status: Lifecycle,
    currentStep: Option<string>, createdAt: int, updatedAt: int)

  /**
   * A row of `buildings`. The type is a free string, not an enumeration;
   * position and size are integer columns; the colour is nullable.
   */
  datatype BuildingRow = BuildingRow(
    id: int, projectId: int, name: string, kind: string,
    positionX: int, positionY: int, positionZ: int,
    width: int, height: int, depth: int,
    color: Option<string>, createdAt: int)

  /** A row of `llm_tasks`. */
  datatype TaskRow = TaskRow(
    id: int, projectId: int, role: TaskRole, model: string, description: string,
    status: Lifecycle, input: Option<string>, output: Option<string>,
    codeGenerated: Option<string>, startedAt: Option<int>, completedAt: Option<int>,
    createdAt: int)

  /** A row of `communication_logs`: sender, receiver and message are all required. */
  datatype LogRow = LogRow(
    id: int, projectId: int, from: string, to: string, message: string, timestamp: int)

  /** Insert shapes: the columns a caller supplies; the rest take their defaults. */
  datatype ProjectInsert = ProjectInsert(userId: int, name: string, prompt: string, status: Lifecycle)

  datatype TaskInsert = TaskInsert(
    projectId: int, role: TaskRole, model: string, description: string,
    status: Lifecycle, input: Option<string>)

  datatype BuildingInsert = BuildingInsert(
    projectId: int, name: string, kind: string,
    positionX: int, positionY: int, positionZ: int,
    width: int, height: int, depth: int, color: Option<string>)

  datatype LogInsert = LogInsert(projectId: int, from: string, to: string, message: string)
}
