/**
 * Properties of whole `processPrompt` runs: the try block's script played
 * against a store whose writes may be rejected, as the caller and the
 * store observe it.
 */
module Runs {
  import opened Wrappers
  import opened Errors
  import opened JsonValue
  import Schema
  import Plan
  import Extraction
  import opened Orchestrator
  import opened RunProperties
  import opened Execution

  /**
   * A view of a run is a prefix of the script's view, possibly followed by
   * the view of the catch block's `failed` status, and the whole of it when
   * the run succeeds.
   */
  lemma RunView<T>(s: Script, st: Store, f: Write -> Option<T>, target: seq<T>)
    requires Project(s.writes, f) <= target
    requires s.ending.Finished? ==> Project(s.writes, f) == target
    ensures var v := Project(Execute(s, st).trace, f);
      v <= target || (|v| > 0 && v[..|v| - 1] <= target && f(SetStatus(Schema.Failed, None)) == Some(v[|v| - 1]))
    ensures Execute(s, st).outcome.Succeeded? ==> s.ending.Finished? && Project(Execute(s, st).trace, f) == target
  {
    ExecuteShape(s, st);
    TraceView(s.writes, FirstRejected(st, |s.writes|, 0), Execute(s, st).trace, f, target);
  }

  /** The view of the writes before a rejection, with or without the catch block's `failed` after them. */
  lemma TraceView<T>(ws: seq<Write>, n: nat, t: seq<Write>, f: Write -> Option<T>, target: seq<T>)
    requires n <= |ws| && Project(ws, f) <= target
    requires t == ws[..n] || t == ws[..n] + [SetStatus(Schema.Failed, None)]
    ensures var v := Project(t, f);
      v <= target || (|v| > 0 && v[..|v| - 1] <= target && f(SetStatus(Schema.Failed, None)) == Some(v[|v| - 1]))
  {
    var kept := Project(ws[..n], f);
    ProjectPrefix(ws, n, f);
    ProjectAppend(ws[..n], [SetStatus(Schema.Failed, None)], f);
    assert Project([SetStatus(Schema.Failed, None)], f) ==
      if f(SetStatus(Schema.Failed, None)).Some? then [f(SetStatus(Schema.Failed, None)).value] else [];
    if f(SetStatus(Schema.Failed, None)).Some? {
      var v := kept + [f(SetStatus(Schema.Failed, None)).value];
      assert v[..|v| - 1] == kept;
    } else {
      assert kept + [] == kept;
    }
  }

  /**
   * The project's status history: a prefix of architect, database,
   * backend, frontend, qa, completed, possibly followed by failed; all six
   * in order when the run returns.
   */
  lemma RunStatuses(request: string, llm: Prompt -> Option<string>, decode: string -> Option<Json>, st: Store)
    ensures var v := Project(ProcessPromptRun(request, llm, decode, st).trace, StatusOf);
      v <= SuccessStatuses || (|v| > 0 && v[..|v| - 1] <= SuccessStatuses && v[|v| - 1] == (Schema.Failed, None))
    ensures ProcessPromptRun(request, llm, decode, st).outcome.Succeeded? ==>
      Project(ProcessPromptRun(request, llm, decode, st).trace, StatusOf) == SuccessStatuses
  {
    ScriptStatusChain(request, llm, decode);
    ScriptRunStatuses(TryBlock(request, llm, decode), st);
  }

  /** The status history of any script whose statuses follow the success history, played against any store. */
  lemma ScriptRunStatuses(s: Script, st: Store)
    requires Project(s.writes, StatusOf) <= SuccessStatuses
    requires s.ending.Finished? ==> Project(s.writes, StatusOf) == SuccessStatuses
    ensures var v := Project(Execute(s, st).trace, StatusOf);
      v <= SuccessStatuses || (|v| > 0 && v[..|v| - 1] <= SuccessStatuses && v[|v| - 1] == (Schema.Failed, None))
    ensures Execute(s, st).outcome.Succeeded? ==> Project(Execute(s, st).trace, StatusOf) == SuccessStatuses
  {
    RunView(s, st, StatusOf, SuccessStatuses);
  }

  /**
   * The catch block's attempt index for `s` in `st`: the attempt after the
   * first rejected write, or after the last write when the try block itself
   * threw.
   */
  function CatchAttempt(s: Script, st: Store): nat
  {
    var n := FirstRejected(st, |s.writes|, 0);
    if n < |s.writes| then n + 1 else n
  }

  /** A rethrown run's status history ends in `failed` exactly when the catch block's write of it is accepted. */
  predicate FailedMarked(s: Script, st: Store)
  {
    var r := Execute(s, st);
    var v := Project(r.trace, StatusOf);
    r.outcome.Rethrown? ==> ((|v| > 0 && v[|v| - 1] == (Schema.Failed, None)) <==> !Fails(st, CatchAttempt(s, st)))
  }

  /**
   * A failed run's status history ends in `failed` exactly when the catch
   * block's write of it is accepted: the attempt after the first rejected
   * write, or after the last write when the try block itself threw.
   */
  lemma RunFailedMark(request: string, llm: Prompt -> Option<string>, decode: string -> Option<Json>, st: Store)
    ensures FailedMarked(TryBlock(request, llm, decode), st)
  {
    ScriptStatusChain(request, llm, decode);
    FailedMarkIff(TryBlock(request, llm, decode), st);
  }

  /**
   * For a script whose statuses never include `failed`, a rethrown run's
   * status history ends in `failed` exactly when the catch block's write
   * of it is accepted.
   */
  lemma FailedMarkIff(s: Script, st: Store)
    requires Project(s.writes, StatusOf) <= SuccessStatuses
    ensures FailedMarked(s, st)
  {
    var r := Execute(s, st);
    var n := FirstRejected(st, |s.writes|, 0);
    var c := CatchAttempt(s, st);
    CatchLands(s, st);
    if r.outcome.Rethrown? {
      MarkedFailed(s.writes, n, Fails(st, c), r.trace);
    }
  }

  /**
   * The writes before a rejection, taken from a prefix of the success
   * statuses, end in `failed` exactly when the catch block's write of it
   * follows them.
   */
  lemma MarkedFailed(ws: seq<Write>, n: nat, rejected: bool, t: seq<Write>)
    requires n <= |ws| && Project(ws, StatusOf) <= SuccessStatuses
    requires !rejected ==> t == ws[..n] + [SetStatus(Schema.Failed, None)]
    requires rejected ==> t == ws[..n]
    ensures var v := Project(t, StatusOf); (|v| > 0 && v[|v| - 1] == (Schema.Failed, None)) <==> !rejected
  {
    if rejected {
      ProjectPrefix(ws, n, StatusOf);
      PrefixNotFailed(Project(ws[..n], StatusOf));
    } else {
      FailedAppended(ws[..n]);
    }
  }

  lemma PrefixNotFailed(kept: seq<(Schema.Lifecycle, Option<string>)>)
    requires kept <= SuccessStatuses
    ensures |kept| > 0 ==> kept[|kept| - 1] != (Schema.Failed, None)
  {
    if |kept| > 0 {
      assert kept[|kept| - 1] == SuccessStatuses[|kept| - 1];
    }
  }

  lemma FailedAppended(ws: seq<Write>)
    ensures Project(ws + [SetStatus(Schema.Failed, None)], StatusOf) == Project(ws, StatusOf) + [(Schema.Failed, None)]
  {
    assert (ws + [SetStatus(Schema.Failed, None)])[..|ws|] == ws;
  }

  lemma PrefixMember<T>(x: T, p: seq<T>, q: seq<T>)
    requires p <= q && x in p
    ensures x in q
  {
    var i :| 0 <= i < |p| && p[i] == x;
    assert q[i] == x;
  }

  /** The writes kept before a rejection inside the try block show at most the five in-progress steps. */
  lemma KeptStatuses(s: Script, n: nat)
    requires n <= |s.writes| && (s.ending.Finished? ==> n < |s.writes|)
    requires s.ending.Threw? ==> Project(s.writes, StatusOf) <= SuccessStatuses[..5]
    requires s.ending.Finished? ==>
      && Project(s.writes, StatusOf) == SuccessStatuses
      && s.writes[|s.writes| - 1] == SetStatus(Schema.Completed, None)
    ensures Project(s.writes[..n], StatusOf) <= SuccessStatuses[..5]
  {
    if s.ending.Threw? {
      ProjectPrefix(s.writes, n, StatusOf);
    } else {
      var last := |s.writes| - 1;
      assert Project(s.writes, StatusOf) == Project(s.writes[..last], StatusOf) + [(Schema.Completed, None)];
      assert s.writes[..n] == s.writes[..last][..n];
      ProjectPrefix(s.writes[..last], n, StatusOf);
    }
  }

  /**
   * For any script whose `completed` status is its last write when it
   * returns, and absent when it throws, the status shows up in the run
   * exactly when the run succeeds.
   */
  lemma CompletedIffSucceeded(s: Script, st: Store)
    requires s.ending.Threw? ==> Project(s.writes, StatusOf) <= SuccessStatuses[..5]
    requires s.ending.Finished? ==>
      && Project(s.writes, StatusOf) == SuccessStatuses
      && |s.writes| > 0 && s.writes[|s.writes| - 1] == SetStatus(Schema.Completed, None)
    ensures (Schema.Completed, None) in Project(Execute(s, st).trace, StatusOf) <==> Execute(s, st).outcome.Succeeded?
  {
    var r := Execute(s, st);
    ExecuteShape(s, st);
    if r.outcome.Succeeded? {
      assert SuccessStatuses[5] == (Schema.Completed, None);
    } else {
      NeverCompleted(s, FirstRejected(st, |s.writes|, 0));
    }
  }

  /** The writes kept before a rejection never show `completed`, with or without the catch block's `failed` after them. */
  lemma NeverCompleted(s: Script, n: nat)
    requires n <= |s.writes| && (s.ending.Finished? ==> n < |s.writes|)
    requires s.ending.Threw? ==> Project(s.writes, StatusOf) <= SuccessStatuses[..5]
    requires s.ending.Finished? ==>
      && Project(s.writes, StatusOf) == SuccessStatuses
      && s.writes[|s.writes| - 1] == SetStatus(Schema.Completed, None)
    ensures (Schema.Completed, None) !in Project(s.writes[..n], StatusOf)
    ensures (Schema.Completed, None) !in Project(s.writes[..n] + [SetStatus(Schema.Failed, None)], StatusOf)
  {
    var kept := Project(s.writes[..n], StatusOf);
    KeptStatuses(s, n);
    assert (Schema.Completed, None) !in SuccessStatuses[..5];
    if (Schema.Completed, None) in kept {
      PrefixMember((Schema.Completed, None), kept, SuccessStatuses[..5]);
    }
    ProjectAppend(s.writes[..n], [SetStatus(Schema.Failed, None)], StatusOf);
    assert Project([SetStatus(Schema.Failed, None)], StatusOf) == [(Schema.Failed, None)];
  }

  /** The project is marked completed exactly when the run returns; a failed run never shows it completed. */
  lemma RunCompleted(request: string, llm: Prompt -> Option<string>, decode: string -> Option<Json>, st: Store)
    ensures var r := ProcessPromptRun(request, llm, decode, st);
      (Schema.Completed, None) in Project(r.trace, StatusOf) <==> r.outcome.Succeeded?
  {
    ScriptStatuses(request, llm, decode);
    CompletedIffSucceeded(TryBlock(request, llm, decode), st);
  }

  /** The tasks created and completed: prefixes of the five roles in order, and all five when the run returns. */
  lemma RunTasks(request: string, llm: Prompt -> Option<string>, decode: string -> Option<Json>, st: Store)
    ensures Project(ProcessPromptRun(request, llm, decode, st).trace, RoleOf) <= TaskOrder
    ensures Project(ProcessPromptRun(request, llm, decode, st).trace, CompletionOf) <= CompletionOrder
    ensures ProcessPromptRun(request, llm, decode, st).outcome.Succeeded? ==>
      && Project(ProcessPromptRun(request, llm, decode, st).trace, RoleOf) == TaskOrder
      && Project(ProcessPromptRun(request, llm, decode, st).trace, CompletionOf) == CompletionOrder
  {
    var s := TryBlock(request, llm, decode);
    assert ProcessPromptRun(request, llm, decode, st) == Execute(s, st);
    ScriptRoles(request, llm, decode);
    ScriptCompletions(request, llm, decode);
    ScriptRunTasks(s, st);
  }

  /** The tasks of any script whose roles and completions follow the five-role order, played against any store. */
  lemma ScriptRunTasks(s: Script, st: Store)
    requires Project(s.writes, RoleOf) <= TaskOrder && Project(s.writes, CompletionOf) <= CompletionOrder
    requires s.ending.Finished? ==>
      Project(s.writes, RoleOf) == TaskOrder && Project(s.writes, CompletionOf) == CompletionOrder
    ensures Project(Execute(s, st).trace, RoleOf) <= TaskOrder
    ensures Project(Execute(s, st).trace, CompletionOf) <= CompletionOrder
    ensures Execute(s, st).outcome.Succeeded? ==>
      Project(Execute(s, st).trace, RoleOf) == TaskOrder && Project(Execute(s, st).trace, CompletionOf) == CompletionOrder
  {
    RunView(s, st, RoleOf, TaskOrder);
    RunView(s, st, CompletionOf, CompletionOrder);
  }

  /** No task is ever marked failed, even when the run fails, and every task starts in progress with its description as input. */
  lemma RunTaskWrites(request: string, llm: Prompt -> Option<string>, decode: string -> Option<Json>, st: Store)
    ensures forall w :: w in ProcessPromptRun(request, llm, decode, st).trace ==> TaskWriteOk(w)
  {
    var s := TryBlock(request, llm, decode);
    ScriptTaskWrites(request, llm, decode);
    ExecuteShape(s, st);
    var n := FirstRejected(st, |s.writes|, 0);
    assert forall w :: w in s.writes[..n] ==> w in s.writes;
  }

  /**
   * The buildings stored: a prefix of the plan's records, in phase order
   * and then entity order, and all of them when the run returns.
   */
  lemma RunBuildings(request: string, llm: Prompt -> Option<string>, decode: string -> Option<Json>, st: Store)
    ensures PlanOf(request, llm, decode).None? ==>
      Project(ProcessPromptRun(request, llm, decode, st).trace, BuildingOf) == []
    ensures PlanOf(request, llm, decode).Some? ==>
      Project(ProcessPromptRun(request, llm, decode, st).trace, BuildingOf) <= Plan.Materialize(PlanOf(request, llm, decode).value)
    ensures ProcessPromptRun(request, llm, decode, st).outcome.Succeeded? ==>
      && PlanOf(request, llm, decode).Some?
      && Project(ProcessPromptRun(request, llm, decode, st).trace, BuildingOf) == Plan.Materialize(PlanOf(request, llm, decode).value)
  {
    var s := TryBlock(request, llm, decode);
    ScriptBuildings(request, llm, decode);
    match PlanOf(request, llm, decode)
    case None =>
      RunView(s, st, BuildingOf, []);
    case Some(plan) =>
      RunView(s, st, BuildingOf, Plan.Materialize(plan));
  }

  /**
   * A returning run reports the plan's phase count and its reduced total,
   * which is the number of buildings stored whenever every phase's list is
   * an array.
   */
  lemma RunReport(request: string, llm: Prompt -> Option<string>, decode: string -> Option<Json>, st: Store)
    ensures var r := ProcessPromptRun(request, llm, decode, st);
      r.outcome.Succeeded? ==>
        && PlanOf(request, llm, decode).Some?
        && r.outcome.phases == Plan.PhaseCountOf(PlanOf(request, llm, decode).value)
        && Plan.TotalBuildings(PlanOf(request, llm, decode).value) == Ok(r.outcome.buildingsCreated)
        && (Plan.ListsAreArrays(PlanOf(request, llm, decode).value) ==>
              r.outcome.buildingsCreated == |Project(r.trace, BuildingOf)| as real)
  {
    var s := TryBlock(request, llm, decode);
    ScriptEnding(request, llm, decode);
    ExecuteShape(s, st);
    RunBuildings(request, llm, decode, st);
    if PlanOf(request, llm, decode).Some? && Plan.ListsAreArrays(PlanOf(request, llm, decode).value) {
      Plan.TotalMatchesEntities(PlanOf(request, llm, decode).value);
    }
  }

  // ---------------------------------------------------------------------
  // Scenarios
  // ---------------------------------------------------------------------

  /** With the store down, the first status write throws and so does the catch block's: nothing is stored. */
  lemma StoreDownRun(request: string, llm: Prompt -> Option<string>, decode: string -> Option<Json>, st: Store)
    requires !st.available
    ensures ProcessPromptRun(request, llm, decode, st) == Run([], Rethrown(DatabaseNotAvailable))
  {
    ScriptShape(request, llm, decode);
    assert |Kickoff| > 0;
    StoreDown(TryBlock(request, llm, decode), st);
  }

  /**
   * With the store up but refusing the first write (the kickoff's status
   * update), the catch block's own write still lands: the project is marked
   * failed and the rejection is rethrown.
   */
  lemma FirstWriteRejected(request: string, llm: Prompt -> Option<string>, decode: string -> Option<Json>)
    ensures ProcessPromptRun(request, llm, decode, Store(true, {0})) ==
      Run([SetStatus(Schema.Failed, None)], Rethrown(WriteRejected))
  {
    ScriptShape(request, llm, decode);
    assert |Kickoff| > 0;
    var s := TryBlock(request, llm, decode);
    Execution.SingleRejection(s, 0);
    assert s.writes[..0] == [];
  }

  /** When the architect's call throws, the run has written the kickoff, marks the project failed and rethrows. */
  lemma ArchitectDown(request: string, llm: Prompt -> Option<string>, decode: string -> Option<Json>)
    requires llm(ArchitectPrompt(request)).None?
    ensures ProcessPromptRun(request, llm, decode, Store(true, {})) ==
      Run(Kickoff + [SetStatus(Schema.Failed, None)], Rethrown(LlmFailed))
  {
    Reliable(TryBlock(request, llm, decode));
  }

  /** A script that stops after the architect's task with a TypeError, played against a reliable store. */
  lemma ThrownAfterArchitect(reply: string)
    ensures var r := Execute(Script(Kickoff + ArchitectDone(reply), Threw(TypeError)), Store(true, {}));
      && r.outcome == Rethrown(TypeError)
      && Project(r.trace, StatusOf) == [(Schema.InProgress, Some("architect")), (Schema.Failed, None)]
      && Project(r.trace, CompletionOf) == [0]
      && Project(r.trace, BuildingOf) == []
  {
    var w := Kickoff + ArchitectDone(reply);
    Reliable(Script(w, Threw(TypeError)));
    KickoffViews();
    ArchitectDoneViews(reply);
    ProjectAppend(Kickoff, ArchitectDone(reply), StatusOf);
    ProjectAppend(Kickoff, ArchitectDone(reply), CompletionOf);
    ProjectAppend(Kickoff, ArchitectDone(reply), BuildingOf);
    ThrownViews(w, TypeError);
  }

  /** With every write accepted, a throwing try block's views gain exactly the catch block's `failed` status. */
  lemma ThrownViews(w: seq<Write>, e: Error)
    ensures var t := Execute(Script(w, Threw(e)), Store(true, {})).trace;
      && Project(t, StatusOf) == Project(w, StatusOf) + [(Schema.Failed, None)]
      && Project(t, CompletionOf) == Project(w, CompletionOf)
      && Project(t, BuildingOf) == Project(w, BuildingOf)
  {
    var failed := [SetStatus(Schema.Failed, None)];
    Reliable(Script(w, Threw(e)));
    assert Project(failed, StatusOf) == [(Schema.Failed, None)];
    assert Project(failed, CompletionOf) == [];
    assert Project(failed, BuildingOf) == [];
    ProjectAppend(w, failed, StatusOf);
    ProjectAppend(w, failed, CompletionOf);
    ProjectAppend(w, failed, BuildingOf);
  }

  /**
   * A reply that decodes to `null` is kept (it is valid JSON), so reading
   * its phases throws: the architect's task is completed, the project is
   * marked failed, and the TypeError is rethrown.
   */
  lemma NullPlanFails(request: string, llm: Prompt -> Option<string>, decode: string -> Option<Json>)
    requires llm(ArchitectPrompt(request)).Some?
    requires decode(Extraction.Candidate(llm(ArchitectPrompt(request)).value)) == Some(JNull)
    ensures var r := ProcessPromptRun(request, llm, decode, Store(true, {}));
      && r.outcome == Rethrown(TypeError)
      && Project(r.trace, StatusOf) == [(Schema.InProgress, Some("architect")), (Schema.Failed, None)]
      && Project(r.trace, CompletionOf) == [0]
      && Project(r.trace, BuildingOf) == []
  {
    var reply := llm(ArchitectPrompt(request)).value;
    assert TryBlock(request, llm, decode) == Script(Kickoff + ArchitectDone(reply), Threw(TypeError));
    ThrownAfterArchitect(reply);
  }

  /**
   * A decoded plan whose `phases` has a `length` that cannot be converted
   * throws at the log line before the database status: the run stores the
   * same as for a `null` plan.
   */
  lemma UnconvertibleCountFails(request: string, llm: Prompt -> Option<string>, decode: string -> Option<Json>)
    requires llm(ArchitectPrompt(request)).Some?
    requires decode(Extraction.Candidate(llm(ArchitectPrompt(request)).value)) ==
      Some(JObj(map["phases" := JObj(map["length" := JObj(map["toString" := JNum(0.0)])])]))
    ensures var r := ProcessPromptRun(request, llm, decode, Store(true, {}));
      && r.outcome == Rethrown(TypeError)
      && Project(r.trace, StatusOf) == [(Schema.InProgress, Some("architect")), (Schema.Failed, None)]
      && Project(r.trace, CompletionOf) == [0]
      && Project(r.trace, BuildingOf) == []
  {
    var reply := llm(ArchitectPrompt(request)).value;
    Plan.ReducedPlanLogs(Plan.ParsePlan(reply, decode));
    assert TryBlock(request, llm, decode) == Script(Kickoff + ArchitectDone(reply), Threw(TypeError));
    ThrownAfterArchitect(reply);
  }

  lemma Join3<T>(a: seq<Write>, b: seq<Write>, c: seq<Write>, f: Write -> Option<T>)
    ensures Project(a + b + c, f) == Project(a, f) + Project(b, f) + Project(c, f)
  {
    ProjectAppend(a, b, f);
    ProjectAppend(a + b, c, f);
  }

  /** The try block returns once the plan is present, its total reduces, the construction loop completes and the QA call answers. */
  lemma ScriptFinishes(request: string, llm: Prompt -> Option<string>, decode: string -> Option<Json>, plan: Json, total: real)
    requires PlanOf(request, llm, decode) == Some(plan)
    requires !Nullish(plan) && Plan.TotalBuildings(plan) == Ok(total)
    requires !ConstructionBlock(PlanPhases(plan)).thrown
    requires llm(QaPromptOf(plan, total)).Some?
    ensures TryBlock(request, llm, decode).ending == Finished(total, Plan.PhaseCountOf(plan))
  {
    Plan.ReducedPlanLogs(plan);
  }

  /** The construction loop runs through every phase of the fallback plan. */
  lemma FallbackConstructs()
    ensures !ConstructionBlock(PlanPhases(Plan.FallbackPlan)).thrown
  {
    Plan.FallbackTotal();
    Plan.FallbackMaterializes();
    var ps := PlanPhases(Plan.FallbackPlan);
    Plan.FallbackPhasesConvert();
    Plan.FallbackPhasesOf();
    ConstructionSafe(ps);
  }

  /** The fallback plan is present, reduces to 24, has five phases, and its construction loop completes. */
  lemma FallbackFacts()
    ensures !Nullish(Plan.FallbackPlan)
    ensures Plan.TotalBuildings(Plan.FallbackPlan) == Ok(24.0)
    ensures Plan.PhaseCountOf(Plan.FallbackPlan) == JNum(5.0)
    ensures !ConstructionBlock(PlanPhases(Plan.FallbackPlan)).thrown
    ensures |Plan.Materialize(Plan.FallbackPlan)| == 24
  {
    Plan.FallbackTotal();
    Plan.FallbackPhasesOf();
    assert Member(Plan.FallbackPlan, "phases").JArr?;
    FallbackConstructs();
  }

  /**
   * When every call answers but no reply decodes, the run builds the
   * fallback plan: all 24 of its buildings, in order, reported with five
   * phases, and every status and task of a completed project.
   */
  lemma FallbackRun(request: string, llm: Prompt -> Option<string>, decode: string -> Option<Json>)
    requires forall p :: llm(p).Some?
    requires forall t :: decode(t).None?
    ensures var r := ProcessPromptRun(request, llm, decode, Store(true, {}));
      && r.outcome == Succeeded(24.0, JNum(5.0))
      && Project(r.trace, BuildingOf) == Plan.Materialize(Plan.FallbackPlan)
      && |Project(r.trace, BuildingOf)| == 24
      && Project(r.trace, StatusOf) == SuccessStatuses
      && Project(r.trace, RoleOf) == TaskOrder
  {
    var reply := llm(ArchitectPrompt(request)).value;
    assert Plan.ParsePlan(reply, decode) == Plan.FallbackPlan;
    FallbackFacts();
    assert llm(QaPromptOf(Plan.FallbackPlan, 24.0)).Some?;
    ScriptFinishes(request, llm, decode, Plan.FallbackPlan, 24.0);
    Reliable(TryBlock(request, llm, decode));
    RunStatuses(request, llm, decode, Store(true, {}));
    RunTasks(request, llm, decode, Store(true, {}));
    RunBuildings(request, llm, decode, Store(true, {}));
  }
}
