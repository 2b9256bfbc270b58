/**
 * The `city` procedures of server/routers.ts over the store model: the
 * not-found and ownership guard that opens every project procedure,
 * `create`, `startBuilding`, the guarded reads and `generateDebateSummary`.
 * The session is the caller's user id, or `None` for an anonymous caller.
 */
module Routers {
  import opened Wrappers
  import opened Errors
  import opened Schema
  import Db
  import opened JsonValue
  import Extraction
  import Orchestrator
  import Runs

  /** The owner id of a project created by an anonymous caller. */
  const AnonymousOwner := 0

  // ---------------------------------------------------------------------
  // The guard
  // ---------------------------------------------------------------------

  /** The ownership rule: an anonymous caller, the owner, or anyone on an anonymous project. */
  predicate MayAccess(user: Option<int>, owner: int) {
    user.None? || owner == user.value || owner == AnonymousOwner
  }

  /**
   * The guard of every project procedure: an absent project is reported
   * before ownership is looked at, and a signed-in caller who does not own
   * a project with a real owner is refused.
   */
  function LoadProject(db: Db.Db, user: Option<int>, id: int): (r: Result<ProjectRow, Error>)
    ensures r == Err(ProjectNotFound) <==> Db.GetCityProjectById(db, id).None?
    ensures r.Ok? <==> Db.GetCityProjectById(db, id).Some? && MayAccess(user, Db.GetCityProjectById(db, id).value.userId)
    ensures r.Err? ==> r.error == ProjectNotFound || r.error == Unauthorized
    ensures r.Ok? ==> r.value in db.projects && r.value.id == id
  {
    match Db.GetCityProjectById(db, id)
    case None => Err(ProjectNotFound)
    case Some(p) =>
      if user.Some? && p.userId != user.value && p.userId != 0 then Err(Unauthorized)
      else Ok(p)
  }

  /**
   * "Unauthorized" is reported exactly when a signed-in caller asks for a
   * stored project whose owner is neither them nor the anonymous owner.
   */
  lemma UnauthorizedIff(db: Db.Db, user: Option<int>, id: int)
    ensures LoadProject(db, user, id) == Err(Unauthorized) <==>
      exists p :: Db.GetCityProjectById(db, id) == Some(p) &&
        user.Some? && p.userId != user.value && p.userId != AnonymousOwner
  {
    match Db.GetCityProjectById(db, id)
    case None =>
    case Some(p) =>
      assert Db.GetCityProjectById(db, id) == Some(p);
  }

  /** An anonymous caller passes the guard on every stored project, whoever owns it. */
  lemma AnonymousCallerPasses(db: Db.Db, id: int, p: ProjectRow)
    requires db.connected && p in db.projects && p.id == id
    ensures LoadProject(db, None, id).Ok?
  {
  }

  /** With the store down every project looks absent: the guard reports "Project not found". */
  lemma StoreDownNotFound(db: Db.Db, user: Option<int>, id: int)
    requires !db.connected
    ensures LoadProject(db, user, id) == Err(ProjectNotFound)
  {
  }

  // ---------------------------------------------------------------------
  // create
  // ---------------------------------------------------------------------

  /** `ctx.user?.id || 0`: the caller's id, or the anonymous owner when there is no caller. */
  function OwnerFor(user: Option<int>): (owner: int)
    ensures user.None? ==> owner == AnonymousOwner
    ensures user.Some? ==> owner == user.value
  {
    if user.Some? && user.value != 0 then user.value else 0
  }

  /**
   * The insert-id check of `create`; `None` stands for the NaN that
   * `Number(undefined)` gives when the driver reports no id.
   */
  function CheckInsertId(reported: Option<int>): (r: Result<int, Error>)
    ensures r.Err? <==> reported.None? || reported.value == 0
    ensures r.Err? ==> r.error == InvalidProjectId
    ensures r.Ok? ==> r.value == reported.value && r.value != 0
  {
    if reported.None? || reported.value == 0 then Err(InvalidProjectId)
    else Ok(reported.value)
  }

  datatype CreateReply = CreateReply(success: bool, projectId: int)

  /** `create`: stores a `pending` project owned by the caller (or by nobody) and returns its id. */
  function Create(db: Db.Db, user: Option<int>, name: string, prompt: string, now: int): (r: Result<(Db.Db, CreateReply), Error>)
    ensures !db.connected <==> r == Err(DatabaseNotAvailable)
    ensures r.Err? ==> r.error == DatabaseNotAvailable
    ensures r.Ok? ==>
      && r.value.1 == CreateReply(true, |db.projects| + 1)
      && r.value.0 == db.(projects := db.projects + [ProjectRow(|db.projects| + 1, OwnerFor(user), name, prompt, Pending, None, now, now)])
  {
    var created :- Db.CreateCityProject(db, ProjectInsert(OwnerFor(user), name, prompt, Pending), now);
    match CheckInsertId(Some(created.1))
    case Err(e) => Err(e)
    case Ok(id) => Ok((created.0, CreateReply(true, id)))
  }

  /** The store's auto-increment picture: the n-th project has id n. */
  predicate NumberedProjects(db: Db.Db) {
    forall i :: 0 <= i < |db.projects| ==> db.projects[i].id == i + 1
  }

  /** Creating a project keeps the numbering. */
  lemma CreateKeepsNumbering(db: Db.Db, user: Option<int>, name: string, prompt: string, now: int)
    requires NumberedProjects(db)
    ensures Create(db, user, name, prompt, now).Ok? ==> NumberedProjects(Create(db, user, name, prompt, now).value.0)
  {
  }

  /** The id a project lookup finds in a numbered store is its position plus one. */
  lemma {:induction false} FindNumbered(projects: seq<ProjectRow>, k: nat, i: nat)
    requires forall j :: 0 <= j < |projects| ==> projects[j].id == k + j + 1
    requires i < |projects|
    ensures Db.FindProject(projects, k + i + 1) == Some(projects[i])
    decreases |projects|
  {
    if i > 0 {
      assert projects[0].id != k + i + 1;
      FindNumbered(projects[1..], k + 1, i - 1);
    }
  }

  /**
   * The creator reads back the project they just created; another
   * signed-in user reads it back only when it was created anonymously.
   */
  lemma CreateThenLoad(db: Db.Db, creator: Option<int>, reader: Option<int>, name: string, prompt: string, now: int)
    requires NumberedProjects(db) && db.connected
    ensures var (db', reply) := Create(db, creator, name, prompt, now).value;
      && LoadProject(db', creator, reply.projectId).Ok?
      && LoadProject(db', creator, reply.projectId).value.prompt == prompt
      && (LoadProject(db', reader, reply.projectId).Ok? <==> reader.None? || OwnerFor(creator) == AnonymousOwner || reader == creator)
  {
    var (db', reply) := Create(db, creator, name, prompt, now).value;
    CreateKeepsNumbering(db, creator, name, prompt, now);
    FindNumbered(db'.projects, 0, |db.projects|);
    assert Db.GetCityProjectById(db', reply.projectId) == Some(db'.projects[|db.projects|]);
  }

  // ---------------------------------------------------------------------
  // startBuilding
  // ---------------------------------------------------------------------

  datatype StartReply = StartReply(success: bool, message: string)

  const StartedMessage := "Building process started"

  /**
   * `startBuilding`: once the guard passes, the fixed reply together with
   * the detached run of `processPrompt` on the stored prompt. The reply
   * is built without waiting for the run; the run's error is only logged.
   */
  function StartBuilding(db: Db.Db, user: Option<int>, id: int,
                         llm: Orchestrator.Prompt -> Option<string>, decode: string -> Option<Json>,
                         st: Orchestrator.Store): (r: Result<(StartReply, Orchestrator.Run), Error>)
    ensures r.Err? <==> LoadProject(db, user, id).Err?
    ensures r.Err? ==> r.error == LoadProject(db, user, id).error
    ensures r.Ok? ==> r.value.0 == StartReply(true, StartedMessage)
    ensures r.Ok? ==> r.value.1 == Orchestrator.ProcessPromptRun(LoadProject(db, user, id).value.prompt, llm, decode, st)
  {
    var p :- LoadProject(db, user, id);
    Ok((StartReply(true, StartedMessage), Orchestrator.ProcessPromptRun(p.prompt, llm, decode, st)))
  }

  /** Whatever the backend and the store do during the run, the caller gets the same answer. */
  lemma StartIgnoresRun(db: Db.Db, user: Option<int>, id: int,
                        llm1: Orchestrator.Prompt -> Option<string>, decode1: string -> Option<Json>, st1: Orchestrator.Store,
                        llm2: Orchestrator.Prompt -> Option<string>, decode2: string -> Option<Json>, st2: Orchestrator.Store)
    ensures StartBuilding(db, user, id, llm1, decode1, st1).Ok? <==> StartBuilding(db, user, id, llm2, decode2, st2).Ok?
    ensures StartBuilding(db, user, id, llm1, decode1, st1).Ok? ==>
      StartBuilding(db, user, id, llm1, decode1, st1).value.0 == StartBuilding(db, user, id, llm2, decode2, st2).value.0
  {
  }

  /**
   * The caller is told the build started even when the run fails: here the
   * store, reached through the cached connection, rejects the run's first
   * write, and the failure only shows in the project's status.
   */
  lemma StartedThoughRunFails(db: Db.Db, user: Option<int>, id: int,
                              llm: Orchestrator.Prompt -> Option<string>, decode: string -> Option<Json>)
    requires LoadProject(db, user, id).Ok?
    ensures StartBuilding(db, user, id, llm, decode, Orchestrator.Store(true, {0})) ==
      Ok((StartReply(true, StartedMessage),
          Orchestrator.Run([Orchestrator.SetStatus(Schema.Failed, None)], Orchestrator.Rethrown(WriteRejected))))
  {
    Runs.FirstWriteRejected(LoadProject(db, user, id).value.prompt, llm, decode);
  }

  // ---------------------------------------------------------------------
  // list and the guarded reads
  // ---------------------------------------------------------------------

  /**
   * `list`: a protected procedure. The middleware in server/_core/trpc.ts is
   * not part of this model; it is taken to refuse an anonymous caller.
   */
  function List(db: Db.Db, user: Option<int>): (r: Result<seq<ProjectRow>, Error>)
    ensures r.Err? <==> user.None?
    ensures r.Ok? ==> forall p :: p in r.value ==> p in db.projects && p.userId == user.value
  {
    if user.None? then Err(Unauthorized)
    else
      var ps := Db.GetCityProjectsByUserId(db, user.value);
      var owned := Db.Filter(db.projects, Db.OwnedBy(user.value));
      assert forall p :: p in ps ==> p in multiset(ps) && p in multiset(owned) && p in owned;
      Ok(ps)
  }

  function GetProject(db: Db.Db, user: Option<int>, id: int): (r: Result<ProjectRow, Error>)
    ensures r == LoadProject(db, user, id)
    ensures r.Ok? ==> r.value in db.projects && r.value.id == id
  {
    LoadProject(db, user, id)
  }

  /** `getBuildings`: the guard, then the project's buildings. */
  function GetBuildings(db: Db.Db, user: Option<int>, id: int): (r: Result<seq<BuildingRow>, Error>)
    ensures r.Err? ==> LoadProject(db, user, id).Err? && r.error == LoadProject(db, user, id).error
    ensures r.Ok? ==> LoadProject(db, user, id).Ok?
    ensures r.Ok? ==> forall b :: b in r.value <==> b in db.buildings && b.projectId == id
  {
    var _ :- LoadProject(db, user, id);
    Ok(Db.GetBuildingsByProjectId(db, id))
  }

  /** `getTasks`: the guard, then the project's tasks, newest first. */
  function GetTasks(db: Db.Db, user: Option<int>, id: int): (r: Result<seq<TaskRow>, Error>)
    ensures r.Err? ==> LoadProject(db, user, id).Err? && r.error == LoadProject(db, user, id).error
    ensures r.Ok? ==> LoadProject(db, user, id).Ok?
    ensures r.Ok? ==> Db.SortedDesc(r.value, Db.TaskCreatedAt)
    ensures r.Ok? ==> multiset(r.value) == multiset(Db.Filter(db.tasks, Db.TaskInProject(id)))
  {
    var _ :- LoadProject(db, user, id);
    Ok(Db.GetLlmTasksByProjectId(db, id))
  }

  /** `getLogs`: the guard, then the project's log entries, newest first. */
  function GetLogs(db: Db.Db, user: Option<int>, id: int): (r: Result<seq<LogRow>, Error>)
    ensures r.Err? ==> LoadProject(db, user, id).Err? && r.error == LoadProject(db, user, id).error
    ensures r.Ok? ==> LoadProject(db, user, id).Ok?
    ensures r.Ok? ==> Db.SortedDesc(r.value, Db.LogTime)
    ensures r.Ok? ==> forall l :: l in r.value <==> l in db.logs && l.projectId == id
  {
    var _ :- LoadProject(db, user, id);
    Db.ListedLogs(db, id);
    Ok(Db.GetCommunicationLogsByProjectId(db, id))
  }

  // ---------------------------------------------------------------------
  // generateDebateSummary
  // ---------------------------------------------------------------------

  /** One line of the debate text: `<from> to <to>: <message>`. */
  function Line(l: LogRow): string {
    l.from + " to " + l.to + ": " + l.message
  }

  /** `join("\n")`. */
  function JoinLines(ls: seq<string>): (r: string)
    ensures |ls| == 1 ==> r == ls[0]
    decreases |ls|
  {
    if |ls| == 0 then ""
    else if |ls| == 1 then ls[0]
    else ls[0] + "\n" + JoinLines(ls[1..])
  }

  /** Cuts a text at every newline: the inverse of `JoinLines` on lines that have none. */
  function SplitLines(s: string): (r: seq<string>)
    ensures |r| >= 1
    decreases |s|
  {
    if |s| == 0 then [""]
    else if s[0] == '\n' then [""] + SplitLines(s[1..])
    else
      var rest := SplitLines(s[1..]);
      [[s[0]] + rest[0]] + rest[1..]
  }

  predicate NoNewline(s: string) {
    forall c :: 0 <= c < |s| ==> s[c] != '\n'
  }

  /** The debate text: one line per entry, in the order the store lists them. */
  function DebateText(logs: seq<LogRow>): string {
    JoinLines(seq(|logs|, i requires 0 <= i < |logs| => Line(logs[i])))
  }

  lemma {:induction false} SplitLine(a: string, b: string)
    requires NoNewline(a)
    ensures SplitLines(a) == [a]
    ensures SplitLines(a + "\n" + b) == [a] + SplitLines(b)
    decreases |a|
  {
    if |a| == 0 {
      assert a + "\n" + b == "\n" + b;
      assert ("\n" + b)[1..] == b;
    } else {
      assert NoNewline(a[1..]);
      SplitLine(a[1..], b);
      assert (a + "\n" + b)[1..] == a[1..] + "\n" + b;
      assert [a[0]] + a[1..] == a;
    }
  }

  /** Splitting the joined lines gives them back. */
  lemma {:induction false} SplitJoin(ls: seq<string>)
    requires |ls| >= 1
    requires forall i :: 0 <= i < |ls| ==> NoNewline(ls[i])
    ensures SplitLines(JoinLines(ls)) == ls
    decreases |ls|
  {
    SplitLine(ls[0], "");
    if |ls| > 1 {
      SplitJoin(ls[1..]);
      SplitLine(ls[0], JoinLines(ls[1..]));
    }
  }

  /**
   * When no sender, receiver or message holds a newline, the debate text
   * splits back into exactly one line per entry, in store order.
   */
  lemma DebateTextLines(logs: seq<LogRow>)
    requires |logs| >= 1
    requires forall i :: 0 <= i < |logs| ==> NoNewline(logs[i].from) && NoNewline(logs[i].to) && NoNewline(logs[i].message)
    ensures |SplitLines(DebateText(logs))| == |logs|
    ensures forall i :: 0 <= i < |logs| ==> SplitLines(DebateText(logs))[i] == Line(logs[i])
  {
    var ls := seq(|logs|, i requires 0 <= i < |logs| => Line(logs[i]));
    forall i | 0 <= i < |ls|
      ensures NoNewline(ls[i])
    {
      var l := logs[i];
      assert ls[i] == l.from + " to " + l.to + ": " + l.message;
      forall c | 0 <= c < |ls[i]|
        ensures ls[i][c] != '\n'
      {
        if c < |l.from| {
          assert ls[i][c] == l.from[c];
        } else if c < |l.from| + 4 {
        } else if c < |l.from| + 4 + |l.to| {
          assert ls[i][c] == l.to[c - |l.from| - 4];
        } else if c < |l.from| + 4 + |l.to| + 2 {
        } else {
          assert ls[i][c] == l.message[c - |l.from| - |l.to| - 6];
        }
      }
    }
    SplitJoin(ls);
  }

  /** The fixed summary shape with empty lists and the given conclusion. */
  function EmptySummary(conclusion: string): (v: Json)
    ensures v.JObj? && Member(v, "conclusion") == JStr(conclusion)
    ensures Member(v, "keyArguments") == JArr([]) && Member(v, "agreements") == JArr([]) && Member(v, "disagreements") == JArr([])
  {
    JObj(map["keyArguments" := JArr([]), "agreements" := JArr([]), "disagreements" := JArr([]), "conclusion" := JStr(conclusion)])
  }

  const NoDebateConclusion := "No debate data available yet."
  const FailedConclusion := "Failed to generate summary."

  /**
   * The summary of a list of entries. `llm` receives the debate text (the
   * fixed instructions around it are left out); `None` is a failed call,
   * which escapes. A reply that does not decode degrades to the fixed
   * failure result; one that decodes is returned as it is.
   */
  function Summarize(logs: seq<LogRow>, llm: string -> Option<string>, decode: string -> Option<Json>): (r: Result<Json, Error>)
    ensures logs == [] ==> r == Ok(EmptySummary(NoDebateConclusion))
    ensures r.Err? <==> logs != [] && llm(DebateText(logs)).None?
    ensures r.Err? ==> r.error == LlmFailed
    ensures logs != [] && llm(DebateText(logs)).Some? ==>
      match decode(Extraction.Candidate(llm(DebateText(logs)).value))
      case None => r == Ok(EmptySummary(FailedConclusion))
      case Some(v) => r == Ok(v)
  {
    if |logs| == 0 then Ok(EmptySummary(NoDebateConclusion))
    else
      match llm(DebateText(logs))
      case None => Err(LlmFailed)
      case Some(content) =>
        match decode(Extraction.Candidate(content))
        case None => Ok(EmptySummary(FailedConclusion))
        case Some(v) => Ok(v)
  }

  /** Without entries the backend is never consulted: any two backends give the same answer. */
  lemma NoEntriesNoCall(llm1: string -> Option<string>, llm2: string -> Option<string>,
                        decode1: string -> Option<Json>, decode2: string -> Option<Json>)
    ensures Summarize([], llm1, decode1) == Summarize([], llm2, decode2)
  {
  }

  /**
   * A summary the backend wraps in a `json` fence is decoded from exactly
   * the fenced object, and whatever that decodes to — whatever its shape —
   * is the answer.
   */
  lemma FencedSummary(logs: seq<LogRow>, llm: string -> Option<string>, decode: string -> Option<Json>,
                      p: string, j: string, q: string)
    requires logs != [] && llm(DebateText(logs)) == Some(p + Extraction.Fence + "json\n" + j + "\n" + Extraction.Fence + q)
    requires forall c :: 0 <= c < |p| ==> p[c] != '`'
    requires forall c :: 0 <= c < |q| ==> q[c] != '}'
    requires 2 <= |j| && j[0] == '{' && j[|j| - 1] == '}'
    ensures decode(j).Some? ==> Summarize(logs, llm, decode) == Ok(decode(j).value)
    ensures decode(j).None? ==> Summarize(logs, llm, decode) == Ok(EmptySummary(FailedConclusion))
  {
    Extraction.FencedRoundTrip(p, j, q);
  }

  /** `generateDebateSummary`: the guard, then the summary of the project's entries, newest first. */
  function GenerateDebateSummary(db: Db.Db, user: Option<int>, id: int,
                                 llm: string -> Option<string>, decode: string -> Option<Json>): (r: Result<Json, Error>)
    ensures r.Err? ==> r.error in {ProjectNotFound, Unauthorized, LlmFailed}
    ensures LoadProject(db, user, id).Err? ==> r == LoadProject(db, user, id).PropagateFailure()
    ensures LoadProject(db, user, id).Ok? ==> r == Summarize(Db.GetCommunicationLogsByProjectId(db, id), llm, decode)
  {
    var _ :- LoadProject(db, user, id);
    Summarize(Db.GetCommunicationLogsByProjectId(db, id), llm, decode)
  }

  /** A project with no log entries gets the fixed "no data" answer, whatever the backend. */
  lemma QuietProjectSummary(db: Db.Db, user: Option<int>, id: int,
                            llm: string -> Option<string>, decode: string -> Option<Json>)
    requires LoadProject(db, user, id).Ok?
    requires forall l :: l in db.logs ==> l.projectId != id
    ensures GenerateDebateSummary(db, user, id, llm, decode) == Ok(EmptySummary(NoDebateConclusion))
  {
    Db.ListedLogs(db, id);
  }

  /** All guarded procedures of a project fail together, with the same error, or pass together. */
  lemma SharedGuard(db: Db.Db, user: Option<int>, id: int,
                    llm: string -> Option<string>, decode: string -> Option<Json>)
    ensures GetProject(db, user, id).Err? <==> GetBuildings(db, user, id).Err?
    ensures GetBuildings(db, user, id).Err? <==> GetTasks(db, user, id).Err?
    ensures GetTasks(db, user, id).Err? <==> GetLogs(db, user, id).Err?
    ensures GetLogs(db, user, id).Err? ==>
      && GetBuildings(db, user, id).error == GetProject(db, user, id).error
      && GetTasks(db, user, id).error == GetProject(db, user, id).error
      && GetLogs(db, user, id).error == GetProject(db, user, id).error
      && GenerateDebateSummary(db, user, id, llm, decode) == Err(GetProject(db, user, id).error)
  {
  }
}
