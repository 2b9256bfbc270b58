/**
 * The store helpers of server/db.ts over an in-memory picture of the
 * tables. Without a connection every write helper throws "Database not
 * available" while every read helper degrades to an empty list or no row
 * (`upsertUser` alone returns quietly). Auto-increment ids are modelled as
 * the table's size plus one (nothing is ever deleted); the clock is the
 * `now` parameter.
 */
module Db {
  import opened Wrappers
  import opened Errors
  import opened Schema

  datatype Db = Db(
    connected: bool,
    users: seq<UserRow>,
    projects: seq<ProjectRow>,
    buildings: seq<BuildingRow>,
    tasks: seq<TaskRow>,
    logs: seq<LogRow>)

  // ---------------------------------------------------------------------
  // ORDER BY ... DESC
  // ---------------------------------------------------------------------

  predicate SortedDesc<T>(s: seq<T>, key: T -> int) {
    forall i, j :: 0 <= i < j < |s| ==> key(s[i]) >= key(s[j])
  }

  /** Puts `x` before the first element whose key is smaller, so equal keys keep their order. */
  function InsertDesc<T>(x: T, s: seq<T>, key: T -> int): (r: seq<T>)
    requires SortedDesc(s, key)
    ensures SortedDesc(r, key)
    ensures multiset(r) == multiset(s) + multiset{x}
    ensures |r| > 0 && (r[0] == x || (|s| > 0 && r[0] == s[0]))
    decreases |s|
  {
    if |s| == 0 then [x]
    else if key(x) >= key(s[0]) then [x] + s
    else
      var rest := InsertDesc(x, s[1..], key);
      assert s == [s[0]] + s[1..];
      [s[0]] + rest
  }

  /** The rows of `s` from the largest key to the smallest; a row listed earlier in the store comes first among equal keys. */
  function SortDesc<T>(s: seq<T>, key: T -> int): (r: seq<T>)
    ensures SortedDesc(r, key)
    ensures multiset(r) == multiset(s)
    decreases |s|
  {
    if |s| == 0 then []
    else
      assert s == [s[0]] + s[1..];
      InsertDesc(s[0], SortDesc(s[1..], key), key)
  }

  function Filter<T(!new)>(s: seq<T>, keep: T -> bool): (r: seq<T>)
    ensures forall x :: x in r <==> x in s && keep(x)
    ensures |r| <= |s|
    decreases |s|
  {
    if |s| == 0 then []
    else if keep(s[|s| - 1]) then Filter(s[..|s| - 1], keep) + [s[|s| - 1]]
    else Filter(s[..|s| - 1], keep)
  }

  // ---------------------------------------------------------------------
  // Users
  // ---------------------------------------------------------------------

  /** A nullable text column in an insert: left out (`undefined`), `null`, or a value. */
  datatype Field = Absent | Null | Given(text: string)

  /** The `InsertUser` a caller passes; `openId` is `None` when it is missing. */
  datatype UserInput = UserInput(
    openId: Option<string>, name: Field, email: Field, loginMethod: Field,
    lastSignedIn: Option<int>, role: Option<UserRole>)

  /**
   * The columns an upsert sets, for the insert and for the duplicate-key
   * update alike: `None` leaves a column out, `Some(None)` writes null.
   */
  datatype UserSet = UserSet(
    name: Option<Option<string>>, email: Option<Option<string>>, loginMethod: Option<Option<string>>,
    lastSignedIn: Option<int>, role: Option<UserRole>)

  predicate EmptySet(u: UserSet) {
    u.name.None? && u.email.None? && u.loginMethod.None? && u.lastSignedIn.None? && u.role.None?
  }

  /** `value ?? null` for a field that is not left out. */
  function Normalize(f: Field): Option<Option<string>> {
    match f
    case Absent => None
    case Null => Some(None)
    case Given(t) => Some(Some(t))
  }

  /** The role both records carry: an explicit role, else `admin` for the owner, else none. */
  function UpsertRole(u: UserInput, ownerOpenId: string): (r: Option<UserRole>)
    ensures u.role.Some? ==> r == u.role
    ensures u.role.None? && u.openId == Some(ownerOpenId) ==> r == Some(Admin)
    ensures u.role.None? && u.openId != Some(ownerOpenId) ==> r.None?
    ensures r == Some(Admin) ==> u.role == Some(Admin) || u.openId == Some(ownerOpenId)
  {
    if u.role.Some? then u.role
    else if u.openId == Some(ownerOpenId) then Some(Admin)
    else None
  }

  /** The insert values of `upsertUser` (besides `openId`): `lastSignedIn` is defaulted to now. */
  function UpsertValues(u: UserInput, ownerOpenId: string, now: int): (v: UserSet)
    ensures v.lastSignedIn.Some? && (u.lastSignedIn.Some? ==> v.lastSignedIn == u.lastSignedIn)
    ensures (u.name.Absent? <==> v.name.None?) && (u.email.Absent? <==> v.email.None?)
    ensures u.loginMethod.Absent? <==> v.loginMethod.None?
  {
    UserSet(Normalize(u.name), Normalize(u.email), Normalize(u.loginMethod),
      Some(u.lastSignedIn.GetOr(now)), UpsertRole(u, ownerOpenId))
  }

  /** The duplicate-key update set of `upsertUser`: when nothing else would be set it sets `lastSignedIn` to now. */
  function UpsertUpdate(u: UserInput, ownerOpenId: string, now: int): (v: UserSet)
    ensures !EmptySet(v)
    ensures u.lastSignedIn.Some? ==> v.lastSignedIn == u.lastSignedIn
    ensures (u.name.Absent? <==> v.name.None?) && (u.email.Absent? <==> v.email.None?)
    ensures u.loginMethod.Absent? <==> v.loginMethod.None?
  {
    var fields := UserSet(Normalize(u.name), Normalize(u.email), Normalize(u.loginMethod),
      u.lastSignedIn, UpsertRole(u, ownerOpenId));
    if EmptySet(fields) then fields.(lastSignedIn := Some(now)) else fields
  }

  /**
   * The two records agree on every text column and on the role; a column
   * left out of the input is left out of both; the insert always carries a
   * sign-in time and the update set is never empty.
   */
  lemma UpsertRecords(u: UserInput, ownerOpenId: string, now: int)
    ensures var v := UpsertValues(u, ownerOpenId, now); var w := UpsertUpdate(u, ownerOpenId, now);
      && v.name == w.name && v.email == w.email && v.loginMethod == w.loginMethod && v.role == w.role
      && (u.name.Absent? <==> v.name.None?)
      && (u.email.Absent? <==> v.email.None?)
      && (u.loginMethod.Absent? <==> v.loginMethod.None?)
      && (u.name.Null? ==> v.name == Some(None))
      && (u.name.Given? ==> v.name == Some(Some(u.name.text)))
      && v.lastSignedIn.Some?
      && (u.lastSignedIn.Some? ==> v.lastSignedIn == u.lastSignedIn && w.lastSignedIn == u.lastSignedIn)
      && !EmptySet(w)
  {
  }

  /** Overwrites the columns a set carries. */
  function ApplyUserSet(row: UserRow, s: UserSet, now: int): UserRow {
    row.(
      name := s.name.GetOr(row.name),
      email := s.email.GetOr(row.email),
      loginMethod := s.loginMethod.GetOr(row.loginMethod),
      lastSignedIn := s.lastSignedIn.GetOr(row.lastSignedIn),
      role := s.role.GetOr(row.role),
      updatedAt := now)
  }

  /** The index of the user with this `openId` (the column is unique), if any. */
  function FindUser(users: seq<UserRow>, openId: string): (r: Option<nat>)
    ensures r.Some? ==> r.value < |users| && users[r.value].openId == openId
    ensures r.None? ==> forall i :: 0 <= i < |users| ==> users[i].openId != openId
    decreases |users|
  {
    if |users| == 0 then None
    else if users[|users| - 1].openId == openId then Some(|users| - 1)
    else FindUser(users[..|users| - 1], openId)
  }

  /**
   * `upsertUser`: a missing or empty `openId` throws before the store is
   * consulted; without a connection the call returns without writing;
   * otherwise it inserts the user, or updates the existing one.
   */
  function UpsertUser(db: Db, u: UserInput, ownerOpenId: string, now: int): (r: Result<Db, Error>)
    ensures (u.openId.None? || u.openId == Some("")) <==> r == Err(OpenIdRequired)
    ensures r.Ok? ==>
      && r.value.projects == db.projects && r.value.buildings == db.buildings
      && r.value.tasks == db.tasks && r.value.logs == db.logs && r.value.connected == db.connected
    ensures r.Ok? && !db.connected ==> r.value == db
  {
    if u.openId.None? || u.openId.value == "" then Err(OpenIdRequired)
    else if !db.connected then Ok(db)
    else
      var openId := u.openId.value;
      match FindUser(db.users, openId)
      case Some(i) =>
        Ok(db.(users := db.users[i := ApplyUserSet(db.users[i], UpsertUpdate(u, ownerOpenId, now), now)]))
      case None =>
        var v := UpsertValues(u, ownerOpenId, now);
        var row := UserRow(|db.users| + 1, openId, v.name.GetOr(None), v.email.GetOr(None), v.loginMethod.GetOr(None),
          v.role.GetOr(DefaultUserRole), now, now, v.lastSignedIn.GetOr(now));
        Ok(db.(users := db.users + [row]))
  }

  /** `getUserByOpenId`: the matching user, or nothing without a connection. */
  function GetUserByOpenId(db: Db, openId: string): (r: Option<UserRow>)
    ensures !db.connected ==> r.None?
    ensures r.Some? ==> r.value in db.users && r.value.openId == openId
    ensures db.connected && (exists i :: 0 <= i < |db.users| && db.users[i].openId == openId) ==> r.Some?
  {
    if !db.connected then None
    else match FindUser(db.users, openId)
      case Some(i) => Some(db.users[i])
      case None => None
  }

  /**
   * After a successful upsert on a connected store the user exists; its
   * role is the explicit one, else `admin` for the owner, else the role it
   * had (a new user gets the default `user`), and every text column the
   * input names holds the input's value.
   */
  lemma UpsertThenRead(db: Db, u: UserInput, ownerOpenId: string, now: int)
    requires db.connected && UpsertUser(db, u, ownerOpenId, now).Ok?
    ensures var after := UpsertUser(db, u, ownerOpenId, now).value;
      var row := GetUserByOpenId(after, u.openId.value);
      var before := GetUserByOpenId(db, u.openId.value);
      && row.Some?
      && (u.role.Some? ==> row.value.role == u.role.value)
      && (u.role.None? && u.openId.value == ownerOpenId ==> row.value.role == Admin)
      && (u.role.None? && u.openId.value != ownerOpenId ==>
            row.value.role == if before.Some? then before.value.role else DefaultUserRole)
      && (u.name.Given? ==> row.value.name == Some(u.name.text))
      && (u.email.Given? ==> row.value.email == Some(u.email.text))
      && (u.loginMethod.Given? ==> row.value.loginMethod == Some(u.loginMethod.text))
      && (u.lastSignedIn.Some? ==> row.value.lastSignedIn == u.lastSignedIn.value)
  {
    var openId := u.openId.value;
    var after := UpsertUser(db, u, ownerOpenId, now).value;
    match FindUser(db.users, openId)
    case Some(i) =>
      assert after.users[i].openId == openId;
      var j := FindUser(after.users, openId);
      assert j.Some?;
      UniqueAfterUpdate(db.users, i, after.users[i], openId);
    case None =>
      var n := |db.users|;
      assert after.users[n].openId == openId;
      assert after.users[..n] == db.users;
      assert FindUser(after.users, openId) == Some(n);
  }

  /** Updating the one row with a given `openId` keeps it the only one: a lookup finds exactly that row. */
  lemma UniqueAfterUpdate(users: seq<UserRow>, i: nat, row: UserRow, openId: string)
    requires i < |users| && FindUser(users, openId) == Some(i) && row.openId == openId
    ensures FindUser(users[i := row], openId) == Some(i)
    decreases |users|
  {
    if i < |users| - 1 {
      assert users[i := row][..|users| - 1] == users[..|users| - 1][i := row];
      UniqueAfterUpdate(users[..|users| - 1], i, row, openId);
    }
  }

  // ---------------------------------------------------------------------
  // Projects
  // ---------------------------------------------------------------------

  /** `createCityProject`: appends the row and returns its id. */
  function CreateCityProject(db: Db, p: ProjectInsert, now: int): (r: Result<(Db, int), Error>)
    ensures !db.connected <==> r == Err(DatabaseNotAvailable)
    ensures r.Ok? ==>
      && r.value.1 == |db.projects| + 1
      && r.value.0 == db.(projects := db.projects + [ProjectRow(r.value.1, p.userId, p.name, p.prompt, p.status, None, now, now)])
  {
    if !db.connected then Err(DatabaseNotAvailable)
    else
      var id := |db.projects| + 1;
      Ok((db.(projects := db.projects + [ProjectRow(id, p.userId, p.name, p.prompt, p.status, None, now, now)]), id))
  }

  function CreatedAtOf(p: ProjectRow): int { p.createdAt }

  function OwnedBy(userId: int): ProjectRow -> bool {
    (p: ProjectRow) => p.userId == userId
  }

  /** `getCityProjectsByUserId`: the user's projects, newest first; none without a connection. */
  function GetCityProjectsByUserId(db: Db, userId: int): (r: seq<ProjectRow>)
    ensures !db.connected ==> r == []
    ensures db.connected ==> multiset(r) == multiset(Filter(db.projects, OwnedBy(userId)))
    ensures SortedDesc(r, CreatedAtOf)
  {
    if !db.connected then [] else SortDesc(Filter(db.projects, OwnedBy(userId)), CreatedAtOf)
  }

  /** The first row with the given id, if any. */
  function FindProject(projects: seq<ProjectRow>, id: int): (r: Option<ProjectRow>)
    ensures r.Some? ==> r.value in projects && r.value.id == id
    ensures r.None? ==> forall p :: p in projects ==> p.id != id
    decreases |projects|
  {
    if |projects| == 0 then None
    else if projects[0].id == id then Some(projects[0])
    else FindProject(projects[1..], id)
  }

  /** `getCityProjectById`: the project with that id, or nothing without a connection. */
  function GetCityProjectById(db: Db, id: int): (r: Option<ProjectRow>)
    ensures !db.connected ==> r.None?
    ensures r.Some? ==> r.value in db.projects && r.value.id == id
    ensures db.connected && (exists p :: p in db.projects && p.id == id) ==> r.Some?
  {
    if !db.connected then None else FindProject(db.projects, id)
  }

  /** The project row after `updateCityProjectStatus`: drizzle leaves an `undefined` step out of the update. */
  function SetProjectStatus(p: ProjectRow, status: Lifecycle, step: Option<string>, now: int): ProjectRow {
    p.(status := status, currentStep := if step.Some? then step else p.currentStep, updatedAt := now)
  }

  /** `updateCityProjectStatus`: updates the rows with that id. */
  function UpdateCityProjectStatus(db: Db, id: int, status: Lifecycle, step: Option<string>, now: int): (r: Result<Db, Error>)
    ensures !db.connected <==> r == Err(DatabaseNotAvailable)
    ensures r.Ok? ==>
      && |r.value.projects| == |db.projects| && r.value.users == db.users
      && r.value.buildings == db.buildings && r.value.tasks == db.tasks && r.value.logs == db.logs
    ensures r.Ok? ==> forall i :: 0 <= i < |db.projects| ==>
      r.value.projects[i] == if db.projects[i].id == id then SetProjectStatus(db.projects[i], status, step, now) else db.projects[i]
  {
    if !db.connected then Err(DatabaseNotAvailable)
    else Ok(db.(projects := seq(|db.projects|, i requires 0 <= i < |db.projects| =>
      if db.projects[i].id == id then SetProjectStatus(db.projects[i], status, step, now) else db.projects[i])))
  }

  /** A status update without a step keeps the step the project had; with one, replaces it. */
  lemma StatusStep(p: ProjectRow, status: Lifecycle, step: Option<string>, now: int)
    ensures SetProjectStatus(p, status, step, now).status == status
    ensures step.None? ==> SetProjectStatus(p, status, step, now).currentStep == p.currentStep
    ensures step.Some? ==> SetProjectStatus(p, status, step, now).currentStep == step
    ensures SetProjectStatus(p, status, step, now).(status := p.status, currentStep := p.currentStep, updatedAt := p.updatedAt) == p
  {
  }

  // ---------------------------------------------------------------------
  // Buildings, tasks, logs
  // ---------------------------------------------------------------------

  /** `createBuilding`: appends the row and returns its id. */
  function CreateBuilding(db: Db, b: BuildingInsert, now: int): (r: Result<(Db, int), Error>)
    ensures !db.connected <==> r == Err(DatabaseNotAvailable)
    ensures r.Ok? ==>
      && r.value.1 == |db.buildings| + 1
      && r.value.0 == db.(buildings := db.buildings + [BuildingRow(r.value.1, b.projectId, b.name, b.kind,
           b.positionX, b.positionY, b.positionZ, b.width, b.height, b.depth, b.color, now)])
  {
    if !db.connected then Err(DatabaseNotAvailable)
    else
      var id := |db.buildings| + 1;
      Ok((db.(buildings := db.buildings + [BuildingRow(id, b.projectId, b.name, b.kind, b.positionX, b.positionY, b.positionZ,
        b.width, b.height, b.depth, b.color, now)]), id))
  }

  function InProject(projectId: int): BuildingRow -> bool {
    (b: BuildingRow) => b.projectId == projectId
  }

  /** `getBuildingsByProjectId`: the project's buildings (in store order here; the query has no ORDER BY). */
  function GetBuildingsByProjectId(db: Db, projectId: int): (r: seq<BuildingRow>)
    ensures !db.connected ==> r == []
    ensures db.connected ==> forall b :: b in r <==> b in db.buildings && b.projectId == projectId
  {
    if !db.connected then [] else Filter(db.buildings, InProject(projectId))
  }

  /** `createLlmTask`: appends the row (status, input as given; no timestamps but `createdAt`) and returns its id. */
  function CreateLlmTask(db: Db, t: TaskInsert, now: int): (r: Result<(Db, int), Error>)
    ensures !db.connected <==> r == Err(DatabaseNotAvailable)
    ensures r.Ok? ==>
      && r.value.1 == |db.tasks| + 1
      && r.value.0 == db.(tasks := db.tasks + [TaskRow(r.value.1, t.projectId, t.role, t.model, t.description,
           t.status, t.input, None, None, None, None, now)])
  {
    if !db.connected then Err(DatabaseNotAvailable)
    else
      var id := |db.tasks| + 1;
      Ok((db.(tasks := db.tasks + [TaskRow(id, t.projectId, t.role, t.model, t.description,
        t.status, t.input, None, None, None, None, now)]), id))
  }

  function TaskCreatedAt(t: TaskRow): int { t.createdAt }

  function TaskInProject(projectId: int): TaskRow -> bool {
    (t: TaskRow) => t.projectId == projectId
  }

  /** `getLlmTasksByProjectId`: the project's tasks, newest first. */
  function GetLlmTasksByProjectId(db: Db, projectId: int): (r: seq<TaskRow>)
    ensures !db.connected ==> r == []
    ensures db.connected ==> multiset(r) == multiset(Filter(db.tasks, TaskInProject(projectId)))
    ensures SortedDesc(r, TaskCreatedAt)
  {
    if !db.connected then [] else SortDesc(Filter(db.tasks, TaskInProject(projectId)), TaskCreatedAt)
  }

  /** The update record of `updateLlmTaskStatus`; `None` leaves a column out. */
  datatype TaskPatch = TaskPatch(
    status: Lifecycle, startedAt: Option<int>, completedAt: Option<int>,
    output: Option<string>, codeGenerated: Option<string>)

  /** `output` and `codeGenerated` are written only when truthy (present and non-empty). */
  function Truthy(s: Option<string>): Option<string> {
    if s.Some? && s.value != "" then s else None
  }

  /** Builds the update record: a start time for `in_progress`, an end time for `completed` or `failed`. */
  function TaskStatusPatch(status: Lifecycle, output: Option<string>, code: Option<string>, now: int): (p: TaskPatch)
    ensures p.status == status
    ensures !(p.startedAt.Some? && p.completedAt.Some?)
    ensures p.startedAt.Some? ==> p.startedAt == Some(now)
    ensures p.completedAt.Some? ==> p.completedAt == Some(now)
    ensures p.output.Some? ==> p.output == output && p.output.value != ""
    ensures p.codeGenerated.Some? ==> p.codeGenerated == code && p.codeGenerated.value != ""
  {
    TaskPatch(status,
      if status == InProgress then Some(now) else None,
      if status == Completed || status == Failed then Some(now) else None,
      Truthy(output), Truthy(code))
  }

  function ApplyTaskPatch(t: TaskRow, p: TaskPatch): TaskRow {
    t.(status := p.status,
       startedAt := if p.startedAt.Some? then p.startedAt else t.startedAt,
       completedAt := if p.completedAt.Some? then p.completedAt else t.completedAt,
       output := if p.output.Some? then p.output else t.output,
       codeGenerated := if p.codeGenerated.Some? then p.codeGenerated else t.codeGenerated)
  }

  /**
   * What an update does to a task row: it takes the status; it stamps the
   * start exactly for `in_progress` and the end exactly for `completed` or
   * `failed`, and otherwise keeps them; it replaces output and code exactly
   * when non-empty ones are given; and it touches no other column.
   */
  lemma TaskUpdateEffect(t: TaskRow, status: Lifecycle, output: Option<string>, code: Option<string>, now: int)
    ensures var u := ApplyTaskPatch(t, TaskStatusPatch(status, output, code, now));
      && u.status == status
      && (status == InProgress ==> u.startedAt == Some(now))
      && (status != InProgress ==> u.startedAt == t.startedAt)
      && (status == Completed || status == Failed ==> u.completedAt == Some(now))
      && (status != Completed && status != Failed ==> u.completedAt == t.completedAt)
      && (output.Some? && output.value != "" ==> u.output == output)
      && (output.None? || output == Some("") ==> u.output == t.output)
      && (code.Some? && code.value != "" ==> u.codeGenerated == code)
      && (code.None? || code == Some("") ==> u.codeGenerated == t.codeGenerated)
      && u.(status := t.status, startedAt := t.startedAt, completedAt := t.completedAt,
            output := t.output, codeGenerated := t.codeGenerated) == t
  {
  }

  /** The start and end stamps are never both set by one update. */
  lemma TaskPatchStampsExclusive(status: Lifecycle, output: Option<string>, code: Option<string>, now: int)
    ensures !(TaskStatusPatch(status, output, code, now).startedAt.Some? && TaskStatusPatch(status, output, code, now).completedAt.Some?)
    ensures status == Pending ==> TaskStatusPatch(status, output, code, now).startedAt.None? && TaskStatusPatch(status, output, code, now).completedAt.None?
  {
  }

  /** `updateLlmTaskStatus`: applies the update record to the rows with that id. */
  function UpdateLlmTaskStatus(db: Db, id: int, status: Lifecycle, output: Option<string>, code: Option<string>, now: int): (r: Result<Db, Error>)
    ensures !db.connected <==> r == Err(DatabaseNotAvailable)
    ensures r.Ok? ==>
      && |r.value.tasks| == |db.tasks| && r.value.users == db.users && r.value.projects == db.projects
      && r.value.buildings == db.buildings && r.value.logs == db.logs
    ensures r.Ok? ==> forall i :: 0 <= i < |db.tasks| ==>
      r.value.tasks[i] == if db.tasks[i].id == id then ApplyTaskPatch(db.tasks[i], TaskStatusPatch(status, output, code, now)) else db.tasks[i]
  {
    if !db.connected then Err(DatabaseNotAvailable)
    else
      var p := TaskStatusPatch(status, output, code, now);
      Ok(db.(tasks := seq(|db.tasks|, i requires 0 <= i < |db.tasks| =>
        if db.tasks[i].id == id then ApplyTaskPatch(db.tasks[i], p) else db.tasks[i])))
  }

  /** `createCommunicationLog`: appends the entry, stamped now, and returns its id. */
  function CreateCommunicationLog(db: Db, l: LogInsert, now: int): (r: Result<(Db, int), Error>)
    ensures !db.connected <==> r == Err(DatabaseNotAvailable)
    ensures r.Ok? ==>
      && r.value.1 == |db.logs| + 1
      && r.value.0 == db.(logs := db.logs + [LogRow(r.value.1, l.projectId, l.from, l.to, l.message, now)])
  {
    if !db.connected then Err(DatabaseNotAvailable)
    else
      var id := |db.logs| + 1;
      Ok((db.(logs := db.logs + [LogRow(id, l.projectId, l.from, l.to, l.message, now)]), id))
  }

  function LogTime(l: LogRow): int { l.timestamp }

  function LogInProject(projectId: int): LogRow -> bool {
    (l: LogRow) => l.projectId == projectId
  }

  /** `getCommunicationLogsByProjectId`: the project's entries, newest first. */
  function GetCommunicationLogsByProjectId(db: Db, projectId: int): (r: seq<LogRow>)
    ensures !db.connected ==> r == []
    ensures db.connected ==> multiset(r) == multiset(Filter(db.logs, LogInProject(projectId)))
    ensures SortedDesc(r, LogTime)
  {
    if !db.connected then [] else SortDesc(Filter(db.logs, LogInProject(projectId)), LogTime)
  }

  /** A sorted list is a permutation of the filtered rows: exactly the project's entries, each as often as stored. */
  lemma ListedLogs(db: Db, projectId: int)
    requires db.connected
    ensures forall l :: l in GetCommunicationLogsByProjectId(db, projectId) <==> l in db.logs && l.projectId == projectId
  {
    var r := GetCommunicationLogsByProjectId(db, projectId);
    var f := Filter(db.logs, LogInProject(projectId));
    forall l
      ensures l in r <==> l in f
    {
      assert l in r <==> l in multiset(r);
      assert l in f <==> l in multiset(f);
    }
  }

  /** Entries with distinct timestamps come back newest first whatever order they were stored in. */
  lemma LogsNewestFirst(db: Db, projectId: int, i: nat, j: nat)
    requires i < j < |GetCommunicationLogsByProjectId(db, projectId)|
    ensures GetCommunicationLogsByProjectId(db, projectId)[i].timestamp >= GetCommunicationLogsByProjectId(db, projectId)[j].timestamp
  {
    var r := GetCommunicationLogsByProjectId(db, projectId);
    assert LogTime(r[i]) >= LogTime(r[j]);
  }

  // ---------------------------------------------------------------------
  // Reading back what was written
  // ---------------------------------------------------------------------

  /** Filtering a table with one more row at its end adds that row exactly when it is kept. */
  lemma FilterSnoc<T(!new)>(s: seq<T>, x: T, keep: T -> bool)
    ensures Filter(s + [x], keep) == Filter(s, keep) + (if keep(x) then [x] else [])
  {
    assert (s + [x])[..|s|] == s;
  }

  /** The new project shows up in its owner's listing, next to every project listed before; no other listing changes. */
  lemma CreateProjectThenList(db: Db, p: ProjectInsert, now: int, userId: int)
    requires db.connected
    ensures var (db', id) := CreateCityProject(db, p, now).value;
      multiset(GetCityProjectsByUserId(db', userId)) ==
        multiset(GetCityProjectsByUserId(db, userId)) +
        (if p.userId == userId then multiset{ProjectRow(id, p.userId, p.name, p.prompt, p.status, None, now, now)} else multiset{})
  {
    var (db', id) := CreateCityProject(db, p, now).value;
    FilterSnoc(db.projects, ProjectRow(id, p.userId, p.name, p.prompt, p.status, None, now, now), OwnedBy(userId));
  }

  /** A status update is read back through the project's id; a lookup of any other id is unchanged. */
  lemma UpdateStatusThenGet(db: Db, id: int, status: Lifecycle, step: Option<string>, now: int, q: int)
    requires db.connected
    ensures var db' := UpdateCityProjectStatus(db, id, status, step, now).value;
      GetCityProjectById(db', q) ==
        match GetCityProjectById(db, q)
        case None => None
        case Some(p) => Some(if q == id then SetProjectStatus(p, status, step, now) else p)
  {
    var db' := UpdateCityProjectStatus(db, id, status, step, now).value;
    FindProjectUpdated(db.projects, db'.projects, id, status, step, now, q);
  }

  lemma {:induction false} FindProjectUpdated(ps: seq<ProjectRow>, ps': seq<ProjectRow>, id: int,
                                             status: Lifecycle, step: Option<string>, now: int, q: int)
    requires |ps'| == |ps|
    requires forall i :: 0 <= i < |ps| ==>
      ps'[i] == if ps[i].id == id then SetProjectStatus(ps[i], status, step, now) else ps[i]
    ensures FindProject(ps', q) ==
      match FindProject(ps, q)
      case None => None
      case Some(p) => Some(if p.id == id then SetProjectStatus(p, status, step, now) else p)
    decreases |ps|
  {
    if |ps| > 0 {
      assert ps'[0].id == ps[0].id;
      FindProjectUpdated(ps[1..], ps'[1..], id, status, step, now, q);
    }
  }

  /** After an insert, the project's building listing holds the new row and every row it held before, and nothing else. */
  lemma CreateBuildingThenList(db: Db, b: BuildingInsert, now: int, projectId: int)
    requires db.connected
    ensures var (db', id) := CreateBuilding(db, b, now).value;
      var row := BuildingRow(id, b.projectId, b.name, b.kind, b.positionX, b.positionY, b.positionZ,
        b.width, b.height, b.depth, b.color, now);
      forall x :: x in GetBuildingsByProjectId(db', projectId) <==>
        x in GetBuildingsByProjectId(db, projectId) || (b.projectId == projectId && x == row)
  {
  }

  /** After an insert, the project's task listing is the old one plus the new row, counted with multiplicity. */
  lemma CreateTaskThenList(db: Db, t: TaskInsert, now: int, projectId: int)
    requires db.connected
    ensures var (db', id) := CreateLlmTask(db, t, now).value;
      var row := TaskRow(id, t.projectId, t.role, t.model, t.description, t.status, t.input, None, None, None, None, now);
      multiset(GetLlmTasksByProjectId(db', projectId)) ==
        multiset(GetLlmTasksByProjectId(db, projectId)) + (if t.projectId == projectId then multiset{row} else multiset{})
  {
    var (db', id) := CreateLlmTask(db, t, now).value;
    FilterSnoc(db.tasks, TaskRow(id, t.projectId, t.role, t.model, t.description, t.status, t.input, None, None, None, None, now),
      TaskInProject(projectId));
  }

  /** After an insert, the project's log listing is the old one plus the new entry, stamped now. */
  lemma CreateLogThenList(db: Db, l: LogInsert, now: int, projectId: int)
    requires db.connected
    ensures var (db', id) := CreateCommunicationLog(db, l, now).value;
      var row := LogRow(id, l.projectId, l.from, l.to, l.message, now);
      multiset(GetCommunicationLogsByProjectId(db', projectId)) ==
        multiset(GetCommunicationLogsByProjectId(db, projectId)) + (if l.projectId == projectId then multiset{row} else multiset{})
  {
    var (db', id) := CreateCommunicationLog(db, l, now).value;
    FilterSnoc(db.logs, LogRow(id, l.projectId, l.from, l.to, l.message, now), LogInProject(projectId));
  }

  /** A task row after an update of the task with the given id. */
  function UpdatedTask(t: TaskRow, id: int, p: TaskPatch): TaskRow {
    if t.id == id then ApplyTaskPatch(t, p) else t
  }

  /** A task is listed exactly when it is stored for that project. */
  lemma ListedTasks(db: Db, projectId: int)
    requires db.connected
    ensures forall t :: t in GetLlmTasksByProjectId(db, projectId) <==> t in db.tasks && t.projectId == projectId
  {
    var r := GetLlmTasksByProjectId(db, projectId);
    var f := Filter(db.tasks, TaskInProject(projectId));
    forall t
      ensures t in r <==> t in f
    {
      assert t in r <==> t in multiset(r);
      assert t in f <==> t in multiset(f);
    }
  }

  /** Updating rows in place keeps every row, in its updated form, and adds none. */
  lemma UpdatedRows(ts: seq<TaskRow>, ts': seq<TaskRow>, id: int, p: TaskPatch)
    requires |ts'| == |ts| && forall i :: 0 <= i < |ts| ==> ts'[i] == UpdatedTask(ts[i], id, p)
    ensures forall t :: t in ts ==> UpdatedTask(t, id, p) in ts'
    ensures forall x :: x in ts' ==> exists t :: t in ts && x == UpdatedTask(t, id, p)
  {
    forall t | t in ts
      ensures UpdatedTask(t, id, p) in ts'
    {
      var i :| 0 <= i < |ts| && ts[i] == t;
      assert ts'[i] == UpdatedTask(t, id, p);
    }
    forall x | x in ts'
      ensures exists t :: t in ts && x == UpdatedTask(t, id, p)
    {
      var i :| 0 <= i < |ts'| && ts'[i] == x;
      assert ts[i] in ts;
    }
  }

  /**
   * After a status update, the project's task listing shows every task it
   * showed before, the updated one in its new state, and nothing else.
   */
  lemma UpdateTaskThenList(db: Db, id: int, status: Lifecycle, output: Option<string>, code: Option<string>, now: int,
                           projectId: int)
    requires db.connected
    ensures var db' := UpdateLlmTaskStatus(db, id, status, output, code, now).value;
      var p := TaskStatusPatch(status, output, code, now);
      && (forall t :: t in GetLlmTasksByProjectId(db, projectId) ==> UpdatedTask(t, id, p) in GetLlmTasksByProjectId(db', projectId))
      && (forall x :: x in GetLlmTasksByProjectId(db', projectId) ==>
            exists t :: t in GetLlmTasksByProjectId(db, projectId) && x == UpdatedTask(t, id, p))
  {
    var db' := UpdateLlmTaskStatus(db, id, status, output, code, now).value;
    var p := TaskStatusPatch(status, output, code, now);
    assert forall i :: 0 <= i < |db.tasks| ==> db'.tasks[i] == UpdatedTask(db.tasks[i], id, p);
    UpdatedListing(db, db', id, p, projectId);
  }

  lemma UpdatedListing(db: Db, db': Db, id: int, p: TaskPatch, projectId: int)
    requires db.connected && db'.connected
    requires |db'.tasks| == |db.tasks| && forall i :: 0 <= i < |db.tasks| ==> db'.tasks[i] == UpdatedTask(db.tasks[i], id, p)
    ensures forall t :: t in GetLlmTasksByProjectId(db, projectId) ==> UpdatedTask(t, id, p) in GetLlmTasksByProjectId(db', projectId)
    ensures forall x :: x in GetLlmTasksByProjectId(db', projectId) ==>
      exists t :: t in GetLlmTasksByProjectId(db, projectId) && x == UpdatedTask(t, id, p)
  {
    UpdatedRows(db.tasks, db'.tasks, id, p);
    ListedTasks(db, projectId);
    ListedTasks(db', projectId);
  }
}
