/**
 * The `processPrompt` run of server/llmOrchestrator.ts as an event trace.
 *
 * Every `await` on a store helper is a `Write`. The run is split in two:
 *  - `TryBlock` gives the `Script` of the try block: the writes it asks
 *    of a store that accepts them all, in order, and how the block ends
 *    (it returns, or it throws before the next write);
 *  - `Execute` plays a script against a `Store` whose write attempts may
 *    fail. A failed attempt ends the try block; the catch block then
 *    writes status `failed` (an attempt that may itself fail) and rethrows.
 * `ProcessPrompt` is the imperative driver, with the orchestrator's loops, and
 * is proved to produce `Execute(TryBlock(..))`.
 *
 * The project id is the orchestrator's own and is left implicit in every
 * write. Narration messages are reduced to sender, receiver and the
 * line of llmOrchestrator.ts that makes the call; the delays between them are not modelled.
 */
module Orchestrator {
  import opened Wrappers
  import opened Errors
  import opened JsonValue
  import Schema
  import Plan

  /** The participants named in the narration, and as task models. */
  datatype Agent = System | Architect | Database | Backend | Frontend | Qa | All

  function Label(a: Agent): string {
    match a
    case System => "System"
    case Architect => "GPT-4 (Architect)"
    case Database => "Llama (Database)"
    case Backend => "Gemini (Backend)"
    case Frontend => "Claude (Frontend)"
    case Qa => "Mistral (QA)"
    case All => "All"
  }

  /** What is sent to the generative backend; the prompt text is reduced to the values it interpolates. */
  datatype Prompt =
    | ArchitectPrompt(request: string)
    | QaPrompt(total: real, phaseCount: Json, perPhase: seq<Json>)

  /** One call of a store helper, in the order the run makes them. */
  datatype Write =
    | SetStatus(status: Schema.Lifecycle, step: Option<string>)           // updateCityProjectStatus
    | Narrate(from: Agent, to: Agent, line: nat)                          // createCommunicationLog
    | CreateTask(role: Schema.TaskRole, model: string, description: string,
                 status: Schema.Lifecycle, input: string)                  // createLlmTask
    | UpdateTask(task: nat, status: Schema.Lifecycle, output: string, code: string) // updateLlmTaskStatus
    | CreateBuilding(fields: Plan.BuildingFields)                          // createBuilding

  /** A role task: its enumeration value, the agent that runs it and its description. */
  datatype Assignment = Assignment(role: Schema.TaskRole, agent: Agent, description: string)

  const ArchitectTask := Assignment(Schema.Architect, Architect, "Create comprehensive 5-phase city development plan")
  const DatabaseTask := Assignment(Schema.Database, Database, "Create comprehensive database schema for phased city development")
  const BackendTask := Assignment(Schema.Backend, Backend, "Create RESTful API for city management with phase support")
  const FrontendTask := Assignment(Schema.Frontend, Frontend, "Create Three.js 3D city visualization with construction animations")
  const QaTask := Assignment(Schema.Qa, Qa, "Perform final validation of complete city project")

  /** `createTask`: a task starts in progress, with the description as its input. */
  function CreateTaskWrite(a: Assignment): (w: Write)
    ensures w.CreateTask? && w.role == a.role && w.model == Label(a.agent)
    ensures w.status == Schema.InProgress && w.input == w.description && w.description == a.description
  {
    CreateTask(a.role, Label(a.agent), a.description, Schema.InProgress, a.description)
  }

  /**
   * `completeTask`: status completed with the output, and the generated
   * code, or the output itself when no (or empty) code is supplied.
   */
  function CompleteTaskWrite(task: nat, output: string, generated: Option<string>): (w: Write)
    ensures w.UpdateTask? && w.task == task && w.status == Schema.Completed && w.output == output
    ensures generated.Some? && generated.value != "" ==> w.code == generated.value
    ensures generated.None? || generated.value == "" ==> w.code == output
    ensures output != "" ==> w.code != ""
  {
    var code := if generated.Some? && generated.value != "" then generated.value else output;
    UpdateTask(task, Schema.Completed, output, code)
  }

  /** The fixed outputs of the three scripted roles. */
  const DatabaseSummary := "Database schema created with spatial indexing and phase tracking"
  const BackendSummary := "RESTful API created with phase-based endpoints and spatial queries"
  const FrontendSummary := "3D visualization created with construction animations and optimized rendering"

  /** The hard-coded listings stored as generated code, represented by their first lines (only their being non-empty matters here). */
  const SchemaListing := "-- City Buildings Database Schema"
  const ApiListing := "// City Management API with Phase Support"
  const SceneListing := "// Three.js City Visualization with Phased Construction"

  /** The planning discussion before the architect's task. */
  const Debate: seq<Write> := [
    Narrate(System, Architect, 71), Narrate(Architect, All, 75), Narrate(Database, Architect, 79),
    Narrate(Architect, Database, 83), Narrate(Backend, All, 87), Narrate(Frontend, Backend, 91),
    Narrate(Qa, All, 95), Narrate(Architect, Qa, 99), Narrate(Database, All, 103),
    Narrate(Architect, Database, 107), Narrate(Frontend, All, 111), Narrate(Backend, Frontend, 115),
    Narrate(Qa, All, 119), Narrate(Architect, All, 123), Narrate(System, Architect, 129)]

  /** Everything before the architect's backend call. */
  const Kickoff: seq<Write> :=
    [SetStatus(Schema.InProgress, Some("architect"))] + Debate + [CreateTaskWrite(ArchitectTask)]

  /** After the architect answers: its task completes with the reply as output and as code. */
  function ArchitectDone(reply: string): seq<Write> {
    [CompleteTaskWrite(0, reply, None)] + [Narrate(Architect, System, 209)]
  }

  const DatabaseStatus := SetStatus(Schema.InProgress, Some("database"))

  /** The rest of the database stage, after the total is computed. */
  const DatabaseStage: seq<Write> :=
    [Narrate(Architect, Database, 290)] + [Narrate(Database, Architect, 294)] +
    [CreateTaskWrite(DatabaseTask)] + [CompleteTaskWrite(1, DatabaseSummary, Some(SchemaListing))] +
    [Narrate(Database, All, 328)]

  const BackendStage: seq<Write> :=
    [SetStatus(Schema.InProgress, Some("backend"))] +
    [Narrate(Database, Backend, 335)] + [Narrate(Backend, Database, 339)] +
    [CreateTaskWrite(BackendTask)] + [CompleteTaskWrite(2, BackendSummary, Some(ApiListing))] +
    [Narrate(Backend, All, 401)]

  const FrontendStage: seq<Write> :=
    [SetStatus(Schema.InProgress, Some("frontend"))] +
    [Narrate(Backend, Frontend, 408)] + [Narrate(Frontend, Backend, 412)] +
    [CreateTaskWrite(FrontendTask)] + [CompleteTaskWrite(3, FrontendSummary, Some(SceneListing))] +
    [Narrate(Frontend, All, 511)]

  /** The three scripted stages between the database status and the construction loop. */
  const Stages: seq<Write> := DatabaseStage + BackendStage + FrontendStage

  const QaOpening: seq<Write> :=
    [SetStatus(Schema.InProgress, Some("qa"))] +
    [Narrate(Architect, Qa, 580)] + [Narrate(Qa, All, 584)] +
    [CreateTaskWrite(QaTask)]

  function QaClosing(report: string): seq<Write> {
    [CompleteTaskWrite(4, report, None)] +
    [Narrate(Qa, All, 623)] + [Narrate(Architect, System, 627)] +
    [SetStatus(Schema.Completed, None)]
  }

  /** A run of writes and whether it ended by throwing (a narration that reads a nullish value or cannot convert one). */
  datatype Block = Block(writes: seq<Write>, thrown: bool)

  /** Sequential composition: the second part runs only when the first did not throw. */
  function Then(a: Block, b: Block): Block {
    if a.thrown then a else Block(a.writes + b.writes, b.thrown)
  }

  const Plain := Block([], false)

  /** The two narrations about an entity that precede the one naming its colour. */
  const EntityOpening: seq<Write> := [Narrate(Architect, All, 533)] + [Narrate(Database, Architect, 537)]

  /**
   * One entity: three narrations, the creation, two narrations. The first
   * narration throws before anything is written (`Plan.NarrationThrows`);
   * the third throws on the colour after the first two were written.
   */
  function BuildingBlock(b: Json): Block {
    if Plan.NarrationThrows(b) then Block([], true)
    else if Plan.ColorThrows(b) then Block(EntityOpening, true)
    else Block(
      EntityOpening + [Narrate(Frontend, All, 541)] +
      [CreateBuilding(Plan.BuildingFieldsOf(b))] +
      [Narrate(Backend, All, 561)] + [Narrate(Qa, All, 565)], false)
  }

  function EntitiesBlock(bs: seq<Json>): Block
    decreases |bs|
  {
    if |bs| == 0 then Plain else Then(EntitiesBlock(bs[..|bs| - 1]), BuildingBlock(bs[|bs| - 1]))
  }

  const PhaseOpening: seq<Write> := [Narrate(Architect, All, 521)] + [Narrate(Qa, Architect, 525)]
  const PhaseClosing: seq<Write> := [Narrate(Architect, All, 571)]

  /** One phase: its opening narrations (which throw as `Plan.PhaseNarrationThrows` says), its entities, its closing narration. */
  function PhaseBlock(p: Json): Block {
    if Plan.PhaseNarrationThrows(p) then Block([], true)
    else Then(Then(Block(PhaseOpening, false), EntitiesBlock(Plan.PhaseEntities(p))), Block(PhaseClosing, false))
  }

  function ConstructionBlock(ps: seq<Json>): Block
    decreases |ps|
  {
    if |ps| == 0 then Plain else Then(ConstructionBlock(ps[..|ps| - 1]), PhaseBlock(ps[|ps| - 1]))
  }

  /** The phases the construction loop walks: `plan.phases` when it is an array. */
  function PlanPhases(plan: Json): seq<Json> {
    var ph := Member(plan, "phases");
    if ph.JArr? then ph.items else []
  }

  /**
   * The QA prompt's values: the total, the phase count, and
   * `phases[i].buildings.length || 0` for the first five phases. The
   * prompt is only built once the total has reduced, so `phases` is an
   * array or missing, and each of these counts was converted already, by
   * the log line at 282 or a phase's opening narration.
   */
  function QaPromptOf(plan: Json, total: real): Prompt {
    QaPrompt(total, Plan.PhaseCountOf(plan),
      seq(5, i requires 0 <= i < 5 =>
        Or(Member(Member(Element(Member(plan, "phases"), i), "buildings"), "length"), JNum(0.0))))
  }

  /** How the try block ends when every write succeeds. */
  datatype Ending = Finished(buildingsCreated: real, phases: Json) | Threw(error: Error)

  datatype Script = Script(writes: seq<Write>, ending: Ending)

  /**
   * The try block of `processPrompt` against a store that accepts every
   * write: the backend answers (`None` when the call throws), the reply is
   * parsed, the total is reduced, and the stages follow in order.
   */
  function TryBlock(request: string, llm: Prompt -> Option<string>, decode: string -> Option<Json>): (s: Script)
    ensures s.ending.Finished? ==> llm(ArchitectPrompt(request)).Some?
    ensures llm(ArchitectPrompt(request)).None? ==> s.ending == Threw(LlmFailed)
  {
    match llm(ArchitectPrompt(request))
    case None => Script(Kickoff, Threw(LlmFailed))
    case Some(reply) =>
      var plan := Plan.ParsePlan(reply, decode);
      var parsed := Kickoff + ArchitectDone(reply);
      if Plan.PlanLogThrows(plan) then Script(parsed, Threw(TypeError))
      else match Plan.TotalBuildings(plan)
        case Err(e) => Script(parsed + [DatabaseStatus], Threw(e))
        case Ok(total) => ReviewedScript(parsed + [DatabaseStatus] + Stages, plan, total, llm)
  }

  /** The end of the try block after the scripted stages: the construction loop, then the QA review. */
  function ReviewedScript(staged: seq<Write>, plan: Json, total: real, llm: Prompt -> Option<string>): Script {
    var c := ConstructionBlock(PlanPhases(plan));
    if c.thrown then Script(staged + c.writes, Threw(TypeError))
    else match llm(QaPromptOf(plan, total))
      case None => Script(staged + c.writes + QaOpening, Threw(LlmFailed))
      case Some(report) =>
        Script(staged + c.writes + QaOpening + QaClosing(report),
               Finished(total, Plan.PhaseCountOf(plan)))
  }

  /** The plan the run builds from, when the architect answered. */
  function PlanOf(request: string, llm: Prompt -> Option<string>, decode: string -> Option<Json>): Option<Json> {
    match llm(ArchitectPrompt(request))
    case None => None
    case Some(reply) => Some(Plan.ParsePlan(reply, decode))
  }

  /**
   * The store as the run sees it: when it is unavailable every write
   * throws "Database not available"; otherwise the write attempts whose
   * (zero-based) index is in `failing` are rejected.
   */
  datatype Store = Store(available: bool, failing: set<nat>)

  predicate Fails(st: Store, attempt: nat) {
    !st.available || attempt in st.failing
  }

  function WriteError(st: Store): Error {
    if st.available then WriteRejected else DatabaseNotAvailable
  }

  /** The store's log of accepted writes, and whether an attempt has failed (after which the try block has been left). */
  datatype Machine = Machine(trace: seq<Write>, failed: bool)

  const Start := Machine([], false)

  /** One write attempt; while nothing has failed, the attempt index is the number of accepted writes. */
  function Step(st: Store, m: Machine, w: Write): Machine {
    if m.failed then m
    else if Fails(st, |m.trace|) then Machine(m.trace, true)
    else Machine(m.trace + [w], false)
  }

  function Fold(st: Store, m: Machine, ws: seq<Write>): Machine
    decreases |ws|
  {
    if |ws| == 0 then m else Step(st, Fold(st, m, ws[..|ws| - 1]), ws[|ws| - 1])
  }

  /** What the caller of `processPrompt` observes: the returned summary, or the error it rethrows. */
  datatype Outcome = Succeeded(buildingsCreated: real, phases: Json) | Rethrown(error: Error)

  datatype Run = Run(trace: seq<Write>, outcome: Outcome)

  /** The catch block: write status `failed` at the given attempt and rethrow; if that write fails, its error escapes instead. */
  function Catch(st: Store, done: seq<Write>, attempt: nat, cause: Error): (r: Run)
    ensures r.outcome.Rethrown?
    ensures done <= r.trace && |r.trace| <= |done| + 1
    ensures |r.trace| == |done| + 1 <==> !Fails(st, attempt)
    ensures |r.trace| == |done| + 1 ==> r.trace[|done|] == SetStatus(Schema.Failed, None) && r.outcome.error == cause
    ensures |r.trace| == |done| ==> r.outcome.error == WriteError(st)
  {
    if Fails(st, attempt) then Run(done, Rethrown(WriteError(st)))
    else Run(done + [SetStatus(Schema.Failed, None)], Rethrown(cause))
  }

  /** How a machine that has played (part of) a script ends the run. */
  function Settle(st: Store, m: Machine, ending: Ending): Run {
    if m.failed then Catch(st, m.trace, |m.trace| + 1, WriteError(st))
    else match ending
      case Finished(total, phases) => Run(m.trace, Succeeded(total, phases))
      case Threw(e) => Catch(st, m.trace, |m.trace|, e)
  }

  /** Playing writes from the start keeps a prefix of them. */
  lemma {:induction false} FoldPrefix(st: Store, ws: seq<Write>)
    ensures Fold(st, Start, ws).trace <= ws
    ensures !Fold(st, Start, ws).failed ==> Fold(st, Start, ws).trace == ws
    decreases |ws|
  {
    if |ws| > 0 {
      var init := ws[..|ws| - 1];
      FoldPrefix(st, init);
      assert init <= ws;
      assert init + [ws[|ws| - 1]] == ws;
    }
  }

  /**
   * The reference semantics of a run: it succeeds only for a returning
   * script, with the script's own report, and it makes no write the script
   * does not ask for, in order, except one final `failed` status.
   */
  function Execute(s: Script, st: Store): (r: Run)
    ensures r.outcome.Succeeded? ==>
      s.ending.Finished? && r.outcome == Succeeded(s.ending.buildingsCreated, s.ending.phases)
    ensures r.trace <= s.writes ||
      (|r.trace| > 0 && r.trace[..|r.trace| - 1] <= s.writes && r.trace[|r.trace| - 1] == SetStatus(Schema.Failed, None))
  {
    FoldPrefix(st, s.writes);
    var r := Settle(st, Fold(st, Start, s.writes), s.ending);
    assert r.trace == Fold(st, Start, s.writes).trace || r.trace == Fold(st, Start, s.writes).trace + [SetStatus(Schema.Failed, None)];
    r
  }

  /** The whole run: the script played against the store. */
  function ProcessPromptRun(request: string, llm: Prompt -> Option<string>, decode: string -> Option<Json>, st: Store): Run {
    Execute(TryBlock(request, llm, decode), st)
  }

  // ---------------------------------------------------------------------
  // The imperative driver
  // ---------------------------------------------------------------------

  lemma {:induction false} FoldAppend(st: Store, m: Machine, a: seq<Write>, b: seq<Write>)
    ensures Fold(st, m, a + b) == Fold(st, Fold(st, m, a), b)
    decreases |b|
  {
    if |b| == 0 {
      assert a + b == a;
    } else {
      assert (a + b)[..|a + b| - 1] == a + b[..|b| - 1];
      FoldAppend(st, m, a, b[..|b| - 1]);
    }
  }

  /** Issues a block of writes in order. */
  method Emit(st: Store, m: Machine, ws: seq<Write>) returns (r: Machine)
    ensures r == Fold(st, m, ws)
  {
    r := m;
    for i := 0 to |ws|
      invariant r == Fold(st, m, ws[..i])
    {
      assert ws[..i + 1][..i] == ws[..i];
      r := Step(st, r, ws[i]);
    }
    assert ws[..|ws|] == ws;
  }

  lemma {:induction false} EntitiesThrownStable(bs: seq<Json>, k: nat)
    requires k <= |bs| && EntitiesBlock(bs[..k]).thrown
    ensures EntitiesBlock(bs) == EntitiesBlock(bs[..k])
    decreases |bs| - k
  {
    if k < |bs| {
      assert bs[..k + 1][..k] == bs[..k];
      EntitiesThrownStable(bs, k + 1);
    } else {
      assert bs[..k] == bs;
    }
  }

  lemma {:induction false} ConstructionThrownStable(ps: seq<Json>, k: nat)
    requires k <= |ps| && ConstructionBlock(ps[..k]).thrown
    ensures ConstructionBlock(ps) == ConstructionBlock(ps[..k])
    decreases |ps| - k
  {
    if k < |ps| {
      assert ps[..k + 1][..k] == ps[..k];
      ConstructionThrownStable(ps, k + 1);
    } else {
      assert ps[..k] == ps;
    }
  }

  /** The inner construction loop: every entity of one phase, stopping at the first narration that throws. */
  method BuildEntities(st: Store, m: Machine, bs: seq<Json>) returns (r: Machine, thrown: bool)
    ensures r == Fold(st, m, EntitiesBlock(bs).writes) && thrown == EntitiesBlock(bs).thrown
  {
    r := m;
    thrown := false;
    var j := 0;
    while j < |bs|
      invariant 0 <= j <= |bs|
      invariant !EntitiesBlock(bs[..j]).thrown
      invariant r == Fold(st, m, EntitiesBlock(bs[..j]).writes)
    {
      var b := bs[j];
      assert bs[..j + 1][..j] == bs[..j];
      if Plan.NarrationThrows(b) {
        assert EntitiesBlock(bs[..j]).writes + [] == EntitiesBlock(bs[..j]).writes;
        assert EntitiesBlock(bs[..j + 1]) == Block(EntitiesBlock(bs[..j]).writes, true);
        EntitiesThrownStable(bs, j + 1);
        thrown := true;
        return;
      }
      r := Emit(st, r, BuildingBlock(b).writes);
      FoldAppend(st, m, EntitiesBlock(bs[..j]).writes, BuildingBlock(b).writes);
      if Plan.ColorThrows(b) {
        EntitiesThrownStable(bs, j + 1);
        thrown := true;
        return;
      }
      j := j + 1;
    }
    assert bs[..j] == bs;
  }

  /** One phase of the outer construction loop. */
  method BuildPhase(st: Store, m: Machine, p: Json) returns (r: Machine, thrown: bool)
    ensures r == Fold(st, m, PhaseBlock(p).writes) && thrown == PhaseBlock(p).thrown
  {
    if Plan.PhaseNarrationThrows(p) {
      return m, true;
    }
    var opening := PhaseOpening;
    r := Emit(st, m, opening);
    var inner;
    r, inner := BuildEntities(st, r, Plan.PhaseEntities(p));
    FoldAppend(st, m, opening, EntitiesBlock(Plan.PhaseEntities(p)).writes);
    if inner {
      return r, true;
    }
    var closing := PhaseClosing;
    var r2 := Emit(st, r, closing);
    FoldAppend(st, m, opening + EntitiesBlock(Plan.PhaseEntities(p)).writes, closing);
    r, thrown := r2, false;
  }

  /** The outer construction loop over the plan's phases, in order. */
  method Construct(st: Store, m: Machine, ps: seq<Json>) returns (r: Machine, thrown: bool)
    ensures r == Fold(st, m, ConstructionBlock(ps).writes) && thrown == ConstructionBlock(ps).thrown
  {
    r := m;
    thrown := false;
    var i := 0;
    while i < |ps|
      invariant 0 <= i <= |ps|
      invariant !ConstructionBlock(ps[..i]).thrown
      invariant r == Fold(st, m, ConstructionBlock(ps[..i]).writes)
    {
      assert ps[..i + 1][..i] == ps[..i];
      var phaseThrown;
      r, phaseThrown := BuildPhase(st, r, ps[i]);
      FoldAppend(st, m, ConstructionBlock(ps[..i]).writes, PhaseBlock(ps[i]).writes);
      if phaseThrown {
        ConstructionThrownStable(ps, i + 1);
        thrown := true;
        return;
      }
      i := i + 1;
    }
    assert ps[..i] == ps;
  }

  /**
   * `processPrompt`: the try block with its stages in the orchestrator's order; a
   * thrown error leaves it for the catch block. A failed write leaves the
   * machine failed, and the writes after it are no-ops, which is how the
   * model leaves the try block at that point (the backend and the decoder
   * are pure, so consulting them afterwards changes nothing).
   */
  method ProcessPrompt(request: string, llm: Prompt -> Option<string>, decode: string -> Option<Json>, st: Store)
    returns (run: Run)
    ensures run == ProcessPromptRun(request, llm, decode, st)
  {
    var m := Emit(st, Start, Kickoff);
    var answer := llm(ArchitectPrompt(request));
    if answer.None? {
      return Settle(st, m, Threw(LlmFailed));
    }
    var reply := answer.value;
    var m1 := Emit(st, m, ArchitectDone(reply));
    FoldAppend(st, Start, Kickoff, ArchitectDone(reply));
    var parsed := Kickoff + ArchitectDone(reply);
    var plan := Plan.ParsePlan(reply, decode);
    if Plan.PlanLogThrows(plan) {
      return Settle(st, m1, Threw(TypeError));
    }
    var m2 := Emit(st, m1, [DatabaseStatus]);
    FoldAppend(st, Start, parsed, [DatabaseStatus]);
    var total := Plan.TotalBuildings(plan);
    if total.Err? {
      return Settle(st, m2, Threw(total.error));
    }
    var m3 := Emit(st, m2, Stages);
    FoldAppend(st, Start, parsed + [DatabaseStatus], Stages);
    run := ConstructAndReview(st, m3, parsed + [DatabaseStatus] + Stages, plan, total.value, llm);
  }

  /** The construction loop and the QA review, played on from the machine the scripted stages left. */
  method ConstructAndReview(st: Store, m: Machine, staged: seq<Write>, plan: Json, total: real, llm: Prompt -> Option<string>)
    returns (run: Run)
    requires m == Fold(st, Start, staged)
    ensures run == Execute(ReviewedScript(staged, plan, total, llm), st)
  {
    var m4, thrown := Construct(st, m, PlanPhases(plan));
    FoldAppend(st, Start, staged, ConstructionBlock(PlanPhases(plan)).writes);
    if thrown {
      return Settle(st, m4, Threw(TypeError));
    }
    var built := staged + ConstructionBlock(PlanPhases(plan)).writes;
    var m5 := Emit(st, m4, QaOpening);
    FoldAppend(st, Start, built, QaOpening);
    var qa := llm(QaPromptOf(plan, total));
    if qa.None? {
      return Settle(st, m5, Threw(LlmFailed));
    }
    var m6 := Emit(st, m5, QaClosing(qa.value));
    FoldAppend(st, Start, built + QaOpening, QaClosing(qa.value));
    return Settle(st, m6, Finished(total, Plan.PhaseCountOf(plan)));
  }
}
