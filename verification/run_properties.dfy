/**
 * What a `processPrompt` run leaves in the store and reports to its
 * caller, for every backend behaviour, decoder and store: the statuses it
 * writes, the tasks it creates and completes, the buildings it
 * materializes, and how a failure anywhere ends the run.
 */
module RunProperties {
  import opened Wrappers
  import opened Errors
  import opened JsonValue
  import Schema
  import Plan
  import Extraction
  import opened Orchestrator

  // ---------------------------------------------------------------------
  // Views of a trace
  // ---------------------------------------------------------------------

  /** The values `f` picks out of a trace, in trace order. */
  function Project<T>(ws: seq<Write>, f: Write -> Option<T>): seq<T>
    decreases |ws|
  {
    if |ws| == 0 then []
    else
      var rest := Project(ws[..|ws| - 1], f);
      match f(ws[|ws| - 1])
      case Some(t) => rest + [t]
      case None => rest
  }

  lemma {:induction false} ProjectAppend<T>(a: seq<Write>, b: seq<Write>, f: Write -> Option<T>)
    ensures Project(a + b, f) == Project(a, f) + Project(b, f)
    decreases |b|
  {
    if |b| == 0 {
      assert a + b == a;
    } else {
      assert (a + b)[..|a + b| - 1] == a + b[..|b| - 1];
      ProjectAppend(a, b[..|b| - 1], f);
    }
  }

  lemma ProjectAppendAll<T>(f: Write -> Option<T>)
    ensures forall a, b {:trigger Project(a + b, f)} :: Project(a + b, f) == Project(a, f) + Project(b, f)
  {
    forall a, b
      ensures Project(a + b, f) == Project(a, f) + Project(b, f)
    {
      ProjectAppend(a, b, f);
    }
  }

  /** A view of a prefix of a trace is a prefix of the view. */
  lemma ProjectPrefix<T>(ws: seq<Write>, n: nat, f: Write -> Option<T>)
    requires n <= |ws|
    ensures Project(ws[..n], f) <= Project(ws, f)
  {
    assert ws == ws[..n] + ws[n..];
    ProjectAppend(ws[..n], ws[n..], f);
  }

  lemma {:induction false} ProjectSilent<T>(ws: seq<Write>, f: Write -> Option<T>)
    requires forall w :: w in ws ==> f(w).None?
    ensures Project(ws, f) == []
    decreases |ws|
  {
    if |ws| > 0 {
      assert forall w :: w in ws[..|ws| - 1] ==> w in ws;
      ProjectSilent(ws[..|ws| - 1], f);
    }
  }

  lemma PrefixAppend<T>(x: seq<T>, y: seq<T>)
    ensures x <= x + y
  {
  }

  /**
   * Seven consecutive segments whose projections add up to `target`:
   * every cut point after the first, second, third, fifth and sixth
   * segment projects onto a prefix of `target`, and the whole onto it.
   */
  lemma Chain<T>(a: seq<Write>, b: seq<Write>, c: seq<Write>, d: seq<Write>, e: seq<Write>, g: seq<Write>, h: seq<Write>,
                 f: Write -> Option<T>, target: seq<T>)
    requires Project(a, f) + Project(b, f) + Project(c, f) + Project(d, f) + Project(e, f) + Project(g, f) + Project(h, f) == target
    ensures Project(a, f) <= target
    ensures Project(a + b, f) <= target
    ensures Project(a + b + c, f) <= target
    ensures Project(a + b + c + d + e, f) <= target
    ensures Project(a + b + c + d + e + g, f) <= target
    ensures Project(a + b + c + d + e + g + h, f) == target
  {
    ProjectAppend(a, b, f);
    ProjectAppend(a + b, c, f);
    ProjectAppend(a + b + c, d, f);
    ProjectAppend(a + b + c + d, e, f);
    ProjectAppend(a + b + c + d + e, g, f);
    ProjectAppend(a + b + c + d + e + g, h, f);
    var pa, pb, pc, pd, pe, pg, ph := Project(a, f), Project(b, f), Project(c, f), Project(d, f), Project(e, f), Project(g, f), Project(h, f);
    PrefixAppend(pa, pb);
    PrefixAppend(pa + pb, pc);
    PrefixAppend(pa + pb + pc, pd);
    PrefixAppend(pa + pb + pc + pd, pe);
    PrefixAppend(pa + pb + pc + pd + pe, pg);
    PrefixAppend(pa + pb + pc + pd + pe + pg, ph);
  }

  /** Seven segments of which only the fifth projects onto anything: every cut point projects onto nothing or onto it. */
  lemma Lone<T>(a: seq<Write>, b: seq<Write>, c: seq<Write>, d: seq<Write>, e: seq<Write>, g: seq<Write>, h: seq<Write>,
                f: Write -> Option<T>)
    requires Project(a, f) == [] && Project(b, f) == [] && Project(c, f) == [] && Project(d, f) == []
    requires Project(g, f) == [] && Project(h, f) == []
    ensures Project(a, f) == []
    ensures Project(a + b, f) == []
    ensures Project(a + b + c, f) == []
    ensures Project(a + b + c + d + e, f) == Project(e, f)
    ensures Project(a + b + c + d + e + g, f) == Project(e, f)
    ensures Project(a + b + c + d + e + g + h, f) == Project(e, f)
  {
    ProjectAppend(a, b, f);
    ProjectAppend(a + b, c, f);
    ProjectAppend(a + b + c, d, f);
    ProjectAppend(a + b + c + d, e, f);
    ProjectAppend(a + b + c + d + e, g, f);
    ProjectAppend(a + b + c + d + e + g, h, f);
    assert Project(e, f) + [] == Project(e, f);
  }

  /** The project status writes, as (status, step) pairs; `None` is a step left unchanged. */
  function StatusOf(w: Write): Option<(Schema.Lifecycle, Option<string>)> {
    if w.SetStatus? then Some((w.status, w.step)) else None
  }

  /** The roles of the tasks created. */
  function RoleOf(w: Write): Option<Schema.TaskRole> {
    if w.CreateTask? then Some(w.role) else None
  }

  /** The (creation-order) ids of the tasks completed. */
  function CompletionOf(w: Write): Option<nat> {
    if w.UpdateTask? then Some(w.task) else None
  }

  /** The records passed to `createBuilding`. */
  function BuildingOf(w: Write): Option<Plan.BuildingFields> {
    if w.CreateBuilding? then Some(w.fields) else None
  }

  /** The status history of a run that returns. */
  const SuccessStatuses: seq<(Schema.Lifecycle, Option<string>)> := [
    (Schema.InProgress, Some("architect")), (Schema.InProgress, Some("database")),
    (Schema.InProgress, Some("backend")), (Schema.InProgress, Some("frontend")),
    (Schema.InProgress, Some("qa")), (Schema.Completed, None)]

  /** The five role tasks, in creation order. */
  const TaskOrder: seq<Schema.TaskRole> :=
    [Schema.Architect, Schema.Database, Schema.Backend, Schema.Frontend, Schema.Qa]

  const CompletionOrder: seq<nat> := [0, 1, 2, 3, 4]

  // ---------------------------------------------------------------------
  // The fixed stages
  // ---------------------------------------------------------------------

  lemma KickoffStatuses()
    ensures Project(Kickoff, StatusOf) == [(Schema.InProgress, Some("architect"))]
  {
    ProjectAppendAll(StatusOf); ProjectSilent(Debate, StatusOf);
  }

  lemma KickoffRoles()
    ensures Project(Kickoff, RoleOf) == [Schema.Architect]
  {
    ProjectAppendAll(RoleOf); ProjectSilent(Debate, RoleOf);
  }

  lemma KickoffCompletions()
    ensures Project(Kickoff, CompletionOf) == []
  {
    ProjectAppendAll(CompletionOf); ProjectSilent(Debate, CompletionOf);
  }

  lemma KickoffBuildings()
    ensures Project(Kickoff, BuildingOf) == []
  {
    ProjectAppendAll(BuildingOf); ProjectSilent(Debate, BuildingOf);
  }

  lemma KickoffViews()
    ensures Project(Kickoff, StatusOf) == [(Schema.InProgress, Some("architect"))]
    ensures Project(Kickoff, RoleOf) == [Schema.Architect]
    ensures Project(Kickoff, CompletionOf) == []
    ensures Project(Kickoff, BuildingOf) == []
  {
    KickoffStatuses(); KickoffRoles(); KickoffCompletions(); KickoffBuildings();
  }

  lemma ArchitectDoneStatuses(reply: string)
    ensures Project(ArchitectDone(reply), StatusOf) == []
  {
    ProjectAppendAll(StatusOf);
  }

  lemma ArchitectDoneRoles(reply: string)
    ensures Project(ArchitectDone(reply), RoleOf) == []
  {
    ProjectAppendAll(RoleOf);
  }

  lemma ArchitectDoneCompletions(reply: string)
    ensures Project(ArchitectDone(reply), CompletionOf) == [0]
  {
    ProjectAppendAll(CompletionOf);
  }

  lemma ArchitectDoneBuildings(reply: string)
    ensures Project(ArchitectDone(reply), BuildingOf) == []
  {
    ProjectAppendAll(BuildingOf);
  }

  lemma ArchitectDoneViews(reply: string)
    ensures Project(ArchitectDone(reply), StatusOf) == []
    ensures Project(ArchitectDone(reply), RoleOf) == []
    ensures Project(ArchitectDone(reply), CompletionOf) == [0]
    ensures Project(ArchitectDone(reply), BuildingOf) == []
  {
    ArchitectDoneStatuses(reply); ArchitectDoneRoles(reply); ArchitectDoneCompletions(reply); ArchitectDoneBuildings(reply);
  }

  lemma DatabaseStatusViews()
    ensures Project([DatabaseStatus], StatusOf) == [(Schema.InProgress, Some("database"))]
    ensures Project([DatabaseStatus], RoleOf) == []
    ensures Project([DatabaseStatus], CompletionOf) == []
    ensures Project([DatabaseStatus], BuildingOf) == []
  {
    assert Project([DatabaseStatus], StatusOf) == [(Schema.InProgress, Some("database"))] by { ProjectAppendAll(StatusOf); }
    assert Project([DatabaseStatus], RoleOf) == [] by { ProjectAppendAll(RoleOf); }
    assert Project([DatabaseStatus], CompletionOf) == [] by { ProjectAppendAll(CompletionOf); }
    assert Project([DatabaseStatus], BuildingOf) == [] by { ProjectAppendAll(BuildingOf); }
  }

  lemma DatabaseStageStatuses()
    ensures Project(DatabaseStage, StatusOf) == []
  {
    ProjectAppendAll(StatusOf);
  }

  lemma DatabaseStageRoles()
    ensures Project(DatabaseStage, RoleOf) == [Schema.Database]
  {
    ProjectAppendAll(RoleOf);
  }

  lemma DatabaseStageCompletions()
    ensures Project(DatabaseStage, CompletionOf) == [1]
  {
    ProjectAppendAll(CompletionOf);
  }

  lemma DatabaseStageBuildings()
    ensures Project(DatabaseStage, BuildingOf) == []
  {
    ProjectAppendAll(BuildingOf);
  }

  lemma DatabaseStageViews()
    ensures Project(DatabaseStage, StatusOf) == []
    ensures Project(DatabaseStage, RoleOf) == [Schema.Database]
    ensures Project(DatabaseStage, CompletionOf) == [1]
    ensures Project(DatabaseStage, BuildingOf) == []
  {
    DatabaseStageStatuses(); DatabaseStageRoles(); DatabaseStageCompletions(); DatabaseStageBuildings();
  }

  lemma BackendStageStatuses()
    ensures Project(BackendStage, StatusOf) == [(Schema.InProgress, Some("backend"))]
  {
    ProjectAppendAll(StatusOf);
  }

  lemma BackendStageRoles()
    ensures Project(BackendStage, RoleOf) == [Schema.Backend]
  {
    ProjectAppendAll(RoleOf);
  }

  lemma BackendStageCompletions()
    ensures Project(BackendStage, CompletionOf) == [2]
  {
    ProjectAppendAll(CompletionOf);
  }

  lemma BackendStageBuildings()
    ensures Project(BackendStage, BuildingOf) == []
  {
    ProjectAppendAll(BuildingOf);
  }

  lemma BackendStageViews()
    ensures Project(BackendStage, StatusOf) == [(Schema.InProgress, Some("backend"))]
    ensures Project(BackendStage, RoleOf) == [Schema.Backend]
    ensures Project(BackendStage, CompletionOf) == [2]
    ensures Project(BackendStage, BuildingOf) == []
  {
    BackendStageStatuses(); BackendStageRoles(); BackendStageCompletions(); BackendStageBuildings();
  }

  lemma FrontendStageStatuses()
    ensures Project(FrontendStage, StatusOf) == [(Schema.InProgress, Some("frontend"))]
  {
    ProjectAppendAll(StatusOf);
  }

  lemma FrontendStageRoles()
    ensures Project(FrontendStage, RoleOf) == [Schema.Frontend]
  {
    ProjectAppendAll(RoleOf);
  }

  lemma FrontendStageCompletions()
    ensures Project(FrontendStage, CompletionOf) == [3]
  {
    ProjectAppendAll(CompletionOf);
  }

  lemma FrontendStageBuildings()
    ensures Project(FrontendStage, BuildingOf) == []
  {
    ProjectAppendAll(BuildingOf);
  }

  lemma FrontendStageViews()
    ensures Project(FrontendStage, StatusOf) == [(Schema.InProgress, Some("frontend"))]
    ensures Project(FrontendStage, RoleOf) == [Schema.Frontend]
    ensures Project(FrontendStage, CompletionOf) == [3]
    ensures Project(FrontendStage, BuildingOf) == []
  {
    FrontendStageStatuses(); FrontendStageRoles(); FrontendStageCompletions(); FrontendStageBuildings();
  }

  lemma StagesViews()
    ensures Project(Stages, StatusOf) == [(Schema.InProgress, Some("backend")), (Schema.InProgress, Some("frontend"))]
    ensures Project(Stages, RoleOf) == [Schema.Database, Schema.Backend, Schema.Frontend]
    ensures Project(Stages, CompletionOf) == [1, 2, 3]
    ensures Project(Stages, BuildingOf) == []
  {
    DatabaseStageViews();
    BackendStageViews();
    FrontendStageViews();
    ProjectAppend(DatabaseStage + BackendStage, FrontendStage, StatusOf);
    ProjectAppend(DatabaseStage, BackendStage, StatusOf);
    ProjectAppend(DatabaseStage + BackendStage, FrontendStage, RoleOf);
    ProjectAppend(DatabaseStage, BackendStage, RoleOf);
    ProjectAppend(DatabaseStage + BackendStage, FrontendStage, CompletionOf);
    ProjectAppend(DatabaseStage, BackendStage, CompletionOf);
    ProjectAppend(DatabaseStage + BackendStage, FrontendStage, BuildingOf);
    ProjectAppend(DatabaseStage, BackendStage, BuildingOf);
  }

  lemma QaOpeningStatuses()
    ensures Project(QaOpening, StatusOf) == [(Schema.InProgress, Some("qa"))]
  {
    ProjectAppendAll(StatusOf);
  }

  lemma QaOpeningRoles()
    ensures Project(QaOpening, RoleOf) == [Schema.Qa]
  {
    ProjectAppendAll(RoleOf);
  }

  lemma QaOpeningCompletions()
    ensures Project(QaOpening, CompletionOf) == []
  {
    ProjectAppendAll(CompletionOf);
  }

  lemma QaOpeningBuildings()
    ensures Project(QaOpening, BuildingOf) == []
  {
    ProjectAppendAll(BuildingOf);
  }

  lemma QaOpeningViews()
    ensures Project(QaOpening, StatusOf) == [(Schema.InProgress, Some("qa"))]
    ensures Project(QaOpening, RoleOf) == [Schema.Qa]
    ensures Project(QaOpening, CompletionOf) == []
    ensures Project(QaOpening, BuildingOf) == []
  {
    QaOpeningStatuses(); QaOpeningRoles(); QaOpeningCompletions(); QaOpeningBuildings();
  }

  lemma QaClosingStatuses(report: string)
    ensures Project(QaClosing(report), StatusOf) == [(Schema.Completed, None)]
  {
    ProjectAppendAll(StatusOf);
  }

  lemma QaClosingRoles(report: string)
    ensures Project(QaClosing(report), RoleOf) == []
  {
    ProjectAppendAll(RoleOf);
  }

  lemma QaClosingCompletions(report: string)
    ensures Project(QaClosing(report), CompletionOf) == [4]
  {
    ProjectAppendAll(CompletionOf);
  }

  lemma QaClosingBuildings(report: string)
    ensures Project(QaClosing(report), BuildingOf) == []
  {
    ProjectAppendAll(BuildingOf);
  }

  lemma QaClosingViews(report: string)
    ensures Project(QaClosing(report), StatusOf) == [(Schema.Completed, None)]
    ensures Project(QaClosing(report), RoleOf) == []
    ensures Project(QaClosing(report), CompletionOf) == [4]
    ensures Project(QaClosing(report), BuildingOf) == []
  {
    QaClosingStatuses(report); QaClosingRoles(report); QaClosingCompletions(report); QaClosingBuildings(report);
  }

  // ---------------------------------------------------------------------
  // The construction loop
  // ---------------------------------------------------------------------

  /** The construction loop writes narrations and buildings only. */
  predicate Constructive(ws: seq<Write>) {
    forall w :: w in ws ==> w.Narrate? || w.CreateBuilding?
  }

  lemma ConstructiveAppend(a: seq<Write>, b: seq<Write>)
    requires Constructive(a) && Constructive(b)
    ensures Constructive(a + b)
  {
  }

  lemma MaterializeAppend(a: seq<Json>, b: seq<Json>)
    ensures Plan.MaterializeAll(a + b) == Plan.MaterializeAll(a) + Plan.MaterializeAll(b)
  {
  }

  /**
   * An entity's block throws exactly when a narration about it does: with
   * nothing written when the first one throws, and with the first two
   * narrations written when the colour cannot be converted.
   */
  lemma BuildingThrown(b: Json)
    ensures BuildingBlock(b).thrown <==> Plan.EntityThrows(b)
    ensures Plan.NarrationThrows(b) ==> BuildingBlock(b).writes == []
    ensures !Plan.NarrationThrows(b) && Plan.ColorThrows(b) ==>
      BuildingBlock(b).writes == [Narrate(Architect, All, 533), Narrate(Database, Architect, 537)]
    ensures Constructive(BuildingBlock(b).writes)
  {
  }

  /** An object with its own `toString`, which no template literal can interpolate. */
  const Unconvertible: Json := JObj(map["toString" := JNum(0.0)])

  /** An entity whose name cannot be converted throws before any of its writes. */
  lemma UnconvertibleName()
    ensures BuildingBlock(JObj(map["name" := Unconvertible, "position" := JObj(map[]), "size" := JObj(map[])])) ==
      Block([], true)
  {
  }

  /** An entity whose colour cannot be converted throws after its first two narrations, before its building is created. */
  lemma UnconvertibleColor()
    ensures BuildingBlock(JObj(map["position" := JObj(map[]), "size" := JObj(map[]), "color" := JArr([Unconvertible])])) ==
      Block([Narrate(Architect, All, 533), Narrate(Database, Architect, 537)], true)
  {
    var b := JObj(map["position" := JObj(map[]), "size" := JObj(map[]), "color" := JArr([Unconvertible])]);
    assert Member(b, "color").items[0] == Unconvertible;
    assert !Plan.NarrationThrows(b) && Plan.ColorThrows(b);
    assert EntityOpening == [Narrate(Architect, All, 533), Narrate(Database, Architect, 537)];
  }

  /** A phase whose number cannot be converted throws before its opening narration. */
  lemma UnconvertiblePhase()
    ensures PhaseBlock(JObj(map["phase" := Unconvertible])) == Block([], true)
  {
  }

  lemma BuildingRecords(b: Json)
    ensures Project(BuildingBlock(b).writes, BuildingOf) ==
      if Plan.EntityThrows(b) then [] else [Plan.BuildingFieldsOf(b)]
  {
    ProjectAppendAll(BuildingOf);
  }

  lemma {:induction false} EntitiesThrown(bs: seq<Json>)
    ensures EntitiesBlock(bs).thrown <==> exists i :: 0 <= i < |bs| && Plan.EntityThrows(bs[i])
    decreases |bs|
  {
    if |bs| > 0 {
      EntitiesThrown(bs[..|bs| - 1]);
      assert bs == bs[..|bs| - 1] + [bs[|bs| - 1]];
      AnySnoc(bs[..|bs| - 1], bs[|bs| - 1], Plan.EntityThrows);
    }
  }

  lemma {:induction false} EntitiesKinds(bs: seq<Json>)
    ensures Constructive(EntitiesBlock(bs).writes)
    decreases |bs|
  {
    if |bs| > 0 {
      var init := bs[..|bs| - 1];
      EntitiesKinds(init);
      BuildingThrown(bs[|bs| - 1]);
      ConstructiveAppend(EntitiesBlock(init).writes, BuildingBlock(bs[|bs| - 1]).writes);
    }
  }

  /**
   * The inner loop creates the records of its entities in order; when it
   * throws, the records created are a prefix of them.
   */
  lemma {:induction false} EntitiesViews(bs: seq<Json>)
    ensures Project(EntitiesBlock(bs).writes, BuildingOf) <= Plan.MaterializeAll(bs)
    ensures !EntitiesBlock(bs).thrown ==> Project(EntitiesBlock(bs).writes, BuildingOf) == Plan.MaterializeAll(bs)
    decreases |bs|
  {
    if |bs| > 0 {
      var init := bs[..|bs| - 1];
      EntitiesViews(init);
      assert bs == init + [bs[|bs| - 1]];
      EntitiesViewsStep(init, bs[|bs| - 1]);
    }
  }

  /** One more entity extends the created records by its own record, unless an earlier one threw. */
  lemma EntitiesViewsStep(init: seq<Json>, b: Json)
    requires Project(EntitiesBlock(init).writes, BuildingOf) <= Plan.MaterializeAll(init)
    requires !EntitiesBlock(init).thrown ==> Project(EntitiesBlock(init).writes, BuildingOf) == Plan.MaterializeAll(init)
    ensures Project(EntitiesBlock(init + [b]).writes, BuildingOf) <= Plan.MaterializeAll(init + [b])
    ensures !EntitiesBlock(init + [b]).thrown ==>
      Project(EntitiesBlock(init + [b]).writes, BuildingOf) == Plan.MaterializeAll(init + [b])
  {
    MaterializeSnoc(init, b);
    assert (init + [b])[..|init|] == init;
    var e := EntitiesBlock(init);
    if !e.thrown {
      BuildingRecords(b);
      ProjectAppend(e.writes, BuildingBlock(b).writes, BuildingOf);
    }
  }

  lemma MaterializeSnoc(init: seq<Json>, b: Json)
    ensures Plan.MaterializeAll(init + [b]) == Plan.MaterializeAll(init) + [Plan.BuildingFieldsOf(b)]
  {
    MaterializeAppend(init, [b]);
  }

  /** A phase throws when its opening narration does, or a narration about one of its entities. */
  predicate PhaseThrows(p: Json) {
    Plan.PhaseNarrationThrows(p) || exists i :: 0 <= i < |Plan.PhaseEntities(p)| && Plan.EntityThrows(Plan.PhaseEntities(p)[i])
  }

  lemma PhaseThrown(p: Json)
    ensures PhaseBlock(p).thrown <==> PhaseThrows(p)
  {
    if !Plan.PhaseNarrationThrows(p) {
      EntitiesThrown(Plan.PhaseEntities(p));
    }
  }

  lemma PhaseKinds(p: Json)
    ensures Constructive(PhaseBlock(p).writes)
  {
    if !Plan.PhaseNarrationThrows(p) {
      EntitiesKinds(Plan.PhaseEntities(p));
    }
  }

  /** A phase, when it is present, contributes its entities' records in order. */
  lemma PhaseViews(p: Json)
    ensures Project(PhaseBlock(p).writes, BuildingOf) <= Plan.MaterializeAll(Plan.PhaseEntities(p))
    ensures !PhaseBlock(p).thrown ==> Project(PhaseBlock(p).writes, BuildingOf) == Plan.MaterializeAll(Plan.PhaseEntities(p))
  {
    if !Plan.PhaseNarrationThrows(p) {
      var e := EntitiesBlock(Plan.PhaseEntities(p));
      EntitiesViews(Plan.PhaseEntities(p));
      ProjectAppend(PhaseOpening, e.writes, BuildingOf);
      ProjectSilent(PhaseOpening, BuildingOf);
      if !e.thrown {
        ProjectAppend(PhaseOpening + e.writes, PhaseClosing, BuildingOf);
        ProjectSilent(PhaseClosing, BuildingOf);
      }
    }
  }

  lemma {:induction false} ConstructionThrown(ps: seq<Json>)
    ensures ConstructionBlock(ps).thrown <==> exists i :: 0 <= i < |ps| && PhaseThrows(ps[i])
    decreases |ps|
  {
    if |ps| > 0 {
      ConstructionThrown(ps[..|ps| - 1]);
      PhaseThrown(ps[|ps| - 1]);
      assert ps == ps[..|ps| - 1] + [ps[|ps| - 1]];
      AnySnoc(ps[..|ps| - 1], ps[|ps| - 1], PhaseThrows);
    }
  }

  /** Some element satisfies `f` exactly when one before the last does or the last one does. */
  lemma AnySnoc(init: seq<Json>, last: Json, f: Json -> bool)
    ensures (exists i :: 0 <= i < |init + [last]| && f((init + [last])[i])) <==>
      (exists i :: 0 <= i < |init| && f(init[i])) || f(last)
  {
    var s := init + [last];
    if exists i :: 0 <= i < |init| && f(init[i]) {
      var i :| 0 <= i < |init| && f(init[i]);
      assert s[i] == init[i];
    }
    assert s[|init|] == last;
  }

  lemma {:induction false} ConstructionKinds(ps: seq<Json>)
    ensures Constructive(ConstructionBlock(ps).writes)
    decreases |ps|
  {
    if |ps| > 0 {
      var init := ps[..|ps| - 1];
      ConstructionKinds(init);
      PhaseKinds(ps[|ps| - 1]);
      ConstructiveAppend(ConstructionBlock(init).writes, PhaseBlock(ps[|ps| - 1]).writes);
    }
  }

  /**
   * The construction loop creates buildings in phase order and then entity
   * order; when it throws, the records created are a prefix of the plan's.
   */
  lemma {:induction false} ConstructionViews(ps: seq<Json>)
    ensures Project(ConstructionBlock(ps).writes, BuildingOf) <= Plan.MaterializeAll(Plan.FlattenPhases(ps))
    ensures !ConstructionBlock(ps).thrown ==>
      Project(ConstructionBlock(ps).writes, BuildingOf) == Plan.MaterializeAll(Plan.FlattenPhases(ps))
    decreases |ps|
  {
    if |ps| > 0 {
      var init := ps[..|ps| - 1];
      var p := ps[|ps| - 1];
      ConstructionViews(init);
      MaterializeAppend(Plan.FlattenPhases(init), Plan.PhaseEntities(p));
      var c := ConstructionBlock(init);
      if !c.thrown {
        PhaseViews(p);
        ProjectAppend(c.writes, PhaseBlock(p).writes, BuildingOf);
      }
    }
  }

  lemma ConstructionQuiet(ps: seq<Json>)
    ensures Project(ConstructionBlock(ps).writes, StatusOf) == []
    ensures Project(ConstructionBlock(ps).writes, RoleOf) == []
    ensures Project(ConstructionBlock(ps).writes, CompletionOf) == []
  {
    ConstructionKinds(ps);
    ProjectSilent(ConstructionBlock(ps).writes, StatusOf);
    ProjectSilent(ConstructionBlock(ps).writes, RoleOf);
    ProjectSilent(ConstructionBlock(ps).writes, CompletionOf);
  }

  /** When no phase's opening and no entity's narration throws, the construction loop runs to the end. */
  lemma {:induction false} ConstructionSafe(ps: seq<Json>)
    requires forall i :: 0 <= i < |ps| ==> !Plan.PhaseNarrationThrows(ps[i])
    requires forall b :: b in Plan.FlattenPhases(ps) ==> !Plan.EntityThrows(b)
    ensures !ConstructionBlock(ps).thrown
    decreases |ps|
  {
    if |ps| > 0 {
      var init := ps[..|ps| - 1];
      var p := ps[|ps| - 1];
      assert Plan.FlattenPhases(ps) == Plan.FlattenPhases(init) + Plan.PhaseEntities(p);
      ConstructionSafe(init);
      PhaseThrown(p);
      forall i | 0 <= i < |Plan.PhaseEntities(p)|
        ensures !Plan.EntityThrows(Plan.PhaseEntities(p)[i])
      {
        assert Plan.PhaseEntities(p)[i] in Plan.FlattenPhases(ps);
      }
    }
  }

  // ---------------------------------------------------------------------
  // The try block
  // ---------------------------------------------------------------------

  /**
   * The values the try block would use at each step, with placeholders for
   * the steps it never reaches.
   */
  datatype Layout = Layout(reply: string, plan: Json, total: real, report: string)

  function LayoutOf(request: string, llm: Prompt -> Option<string>, decode: string -> Option<Json>): Layout {
    var reply := llm(ArchitectPrompt(request)).GetOr("");
    var plan := Plan.ParsePlan(reply, decode);
    var total := if Plan.TotalBuildings(plan).Ok? then Plan.TotalBuildings(plan).value else 0.0;
    Layout(reply, plan, total, llm(QaPromptOf(plan, total)).GetOr(""))
  }

  /**
   * Whatever the replies, the try block's writes stop at one of six cut
   * points of a single layout: when it throws, after the kickoff, after
   * the architect's reply, after the database status, after the
   * construction loop or after the QA opening; when it returns, at the
   * end, with a construction loop that did not throw.
   */
  lemma ScriptShape(request: string, llm: Prompt -> Option<string>, decode: string -> Option<Json>)
    ensures var s := TryBlock(request, llm, decode);
      var l := LayoutOf(request, llm, decode);
      var cw := ConstructionBlock(PlanPhases(l.plan)).writes;
      && (s.ending.Threw? ==>
           || s.writes == Kickoff
           || s.writes == Kickoff + ArchitectDone(l.reply)
           || s.writes == Kickoff + ArchitectDone(l.reply) + [DatabaseStatus]
           || s.writes == Kickoff + ArchitectDone(l.reply) + [DatabaseStatus] + Stages + cw
           || s.writes == Kickoff + ArchitectDone(l.reply) + [DatabaseStatus] + Stages + cw + QaOpening)
      && (PlanOf(request, llm, decode).None? ==> s.writes == Kickoff)
      && (PlanOf(request, llm, decode).Some? ==> PlanOf(request, llm, decode).value == l.plan)
      && (s.ending.Finished? ==>
           && PlanOf(request, llm, decode).Some?
           && !ConstructionBlock(PlanPhases(l.plan)).thrown
           && s.writes == Kickoff + ArchitectDone(l.reply) + [DatabaseStatus] + Stages + cw + QaOpening + QaClosing(l.report))
  {
    var l := LayoutOf(request, llm, decode);
    if llm(ArchitectPrompt(request)).Some? && !Plan.PlanLogThrows(l.plan) && Plan.TotalBuildings(l.plan).Ok? {
      ReviewedShape(Kickoff + ArchitectDone(l.reply) + [DatabaseStatus] + Stages, l.plan, l.total, llm);
    }
  }

  /** After the scripted stages the try block ends after the construction loop, after the QA opening, or at the end. */
  lemma ReviewedShape(staged: seq<Write>, plan: Json, total: real, llm: Prompt -> Option<string>)
    ensures var s := ReviewedScript(staged, plan, total, llm);
      var cw := ConstructionBlock(PlanPhases(plan)).writes;
      && (s.ending.Threw? ==> s.writes == staged + cw || s.writes == staged + cw + QaOpening)
      && (s.ending.Finished? ==>
           && !ConstructionBlock(PlanPhases(plan)).thrown
           && s.writes == staged + cw + QaOpening + QaClosing(llm(QaPromptOf(plan, total)).GetOr("")))
  {
  }

  /**
   * How the try block ends: a missing architect reply is rethrown as the
   * call's error, a plan whose log line throws (a nullish one, say) is a
   * TypeError, and a return reports the
   * reduced total and the phase count of the plan.
   */
  lemma ScriptEnding(request: string, llm: Prompt -> Option<string>, decode: string -> Option<Json>)
    ensures PlanOf(request, llm, decode).None? ==> TryBlock(request, llm, decode).ending == Threw(LlmFailed)
    ensures PlanOf(request, llm, decode).Some? && Plan.PlanLogThrows(PlanOf(request, llm, decode).value) ==>
      TryBlock(request, llm, decode).ending == Threw(TypeError)
    ensures TryBlock(request, llm, decode).ending.Finished? ==>
      && PlanOf(request, llm, decode).Some?
      && Plan.TotalBuildings(PlanOf(request, llm, decode).value).Ok?
      && TryBlock(request, llm, decode).ending ==
         Finished(Plan.TotalBuildings(PlanOf(request, llm, decode).value).value, Plan.PhaseCountOf(PlanOf(request, llm, decode).value))
  {
    NullPlanEnding(request, llm, decode);
    FinishedEnding(request, llm, decode);
  }

  lemma NullPlanEnding(request: string, llm: Prompt -> Option<string>, decode: string -> Option<Json>)
    ensures PlanOf(request, llm, decode).Some? && Plan.PlanLogThrows(PlanOf(request, llm, decode).value) ==>
      TryBlock(request, llm, decode).ending == Threw(TypeError)
  {
  }

  lemma FinishedEnding(request: string, llm: Prompt -> Option<string>, decode: string -> Option<Json>)
    ensures TryBlock(request, llm, decode).ending.Finished? ==>
      && PlanOf(request, llm, decode).Some?
      && Plan.TotalBuildings(PlanOf(request, llm, decode).value).Ok?
      && TryBlock(request, llm, decode).ending ==
         Finished(Plan.TotalBuildings(PlanOf(request, llm, decode).value).value, Plan.PhaseCountOf(PlanOf(request, llm, decode).value))
  {
    var s := TryBlock(request, llm, decode);
    if s.ending.Finished? {
      var plan := Plan.ParsePlan(llm(ArchitectPrompt(request)).value, decode);
      assert PlanOf(request, llm, decode) == Some(plan);
      assert !Plan.PlanLogThrows(plan) && Plan.TotalBuildings(plan).Ok?;
      var staged := Kickoff + ArchitectDone(llm(ArchitectPrompt(request)).value) + [DatabaseStatus] + Stages;
      assert s == ReviewedScript(staged, plan, Plan.TotalBuildings(plan).value, llm);
      ReviewedEnding(staged, plan, Plan.TotalBuildings(plan).value, llm);
    }
  }

  lemma ReviewedEnding(staged: seq<Write>, plan: Json, total: real, llm: Prompt -> Option<string>)
    ensures ReviewedScript(staged, plan, total, llm).ending.Finished? ==>
      ReviewedScript(staged, plan, total, llm).ending == Finished(total, Plan.PhaseCountOf(plan))
  {
  }

  /** A task write as the run makes it: an update always completes the task, and a new task starts in progress with its description as input. */
  predicate TaskWriteOk(w: Write) {
    && (w.UpdateTask? ==> w.status == Schema.Completed)
    && (w.CreateTask? ==> w.status == Schema.InProgress && w.input == w.description)
  }

  lemma OpeningTaskWrites(reply: string)
    ensures forall w :: w in Kickoff + ArchitectDone(reply) + [DatabaseStatus] ==> TaskWriteOk(w)
  {
  }

  lemma StagesTaskWrites()
    ensures forall w :: w in Stages ==> TaskWriteOk(w)
  {
    DatabaseTaskWrites();
    BackendTaskWrites();
    FrontendTaskWrites();
  }

  lemma DatabaseTaskWrites()
    ensures forall w :: w in DatabaseStage ==> TaskWriteOk(w)
  {
  }

  lemma BackendTaskWrites()
    ensures forall w :: w in BackendStage ==> TaskWriteOk(w)
  {
  }

  lemma FrontendTaskWrites()
    ensures forall w :: w in FrontendStage ==> TaskWriteOk(w)
  {
  }

  lemma ConstructionTaskWrites(ps: seq<Json>)
    ensures forall w :: w in ConstructionBlock(ps).writes ==> TaskWriteOk(w)
  {
    ConstructionKinds(ps);
  }

  lemma QaTaskWrites(report: string)
    ensures forall w :: w in QaOpening + QaClosing(report) ==> TaskWriteOk(w)
  {
  }

  /** Whatever the replies, no task is ever marked anything but completed, and every task starts in progress. */
  lemma ScriptTaskWrites(request: string, llm: Prompt -> Option<string>, decode: string -> Option<Json>)
    ensures forall w :: w in TryBlock(request, llm, decode).writes ==> TaskWriteOk(w)
  {
    var l := LayoutOf(request, llm, decode);
    ScriptShape(request, llm, decode);
    OpeningTaskWrites(l.reply);
    StagesTaskWrites();
    ConstructionTaskWrites(PlanPhases(l.plan));
    QaTaskWrites(l.report);
  }

  lemma StatusPieces()
    ensures [(Schema.InProgress, Some("architect"))] + [] + [(Schema.InProgress, Some("database"))]
      + [(Schema.InProgress, Some("backend")), (Schema.InProgress, Some("frontend"))] + []
      + [(Schema.InProgress, Some("qa"))] + [(Schema.Completed, None)] == SuccessStatuses
  {
  }

  lemma RolePieces()
    ensures [Schema.Architect] + [] + [] + [Schema.Database, Schema.Backend, Schema.Frontend] + []
      + [Schema.Qa] + [] == TaskOrder
  {
  }

  lemma CompletionPieces()
    ensures [] + [0] + [] + [1, 2, 3] + [] + [] + [4] == CompletionOrder
  {
  }

  lemma OpenStatusPieces()
    ensures [(Schema.InProgress, Some("architect"))] + [] + [(Schema.InProgress, Some("database"))]
      + [(Schema.InProgress, Some("backend")), (Schema.InProgress, Some("frontend"))] + []
      + [(Schema.InProgress, Some("qa"))] + [] == SuccessStatuses[..5]
  {
  }

  /**
   * The try block writes a prefix of the success history of statuses: all
   * of it, ending with the `completed` status as its last write, when it
   * returns, and at most the five in-progress steps when it throws.
   */
  lemma ScriptStatuses(request: string, llm: Prompt -> Option<string>, decode: string -> Option<Json>)
    ensures Project(TryBlock(request, llm, decode).writes, StatusOf) <= SuccessStatuses
    ensures TryBlock(request, llm, decode).ending.Threw? ==>
      Project(TryBlock(request, llm, decode).writes, StatusOf) <= SuccessStatuses[..5]
    ensures var ws := TryBlock(request, llm, decode).writes;
      TryBlock(request, llm, decode).ending.Finished? ==>
        && Project(ws, StatusOf) == SuccessStatuses
        && |ws| > 0 && ws[|ws| - 1] == SetStatus(Schema.Completed, None)
  {
    ScriptStatusChain(request, llm, decode);
    ScriptOpenStatuses(request, llm, decode);
    ScriptLastWrite(request, llm, decode);
  }

  lemma ScriptStatusChain(request: string, llm: Prompt -> Option<string>, decode: string -> Option<Json>)
    ensures Project(TryBlock(request, llm, decode).writes, StatusOf) <= SuccessStatuses
    ensures TryBlock(request, llm, decode).ending.Finished? ==>
      Project(TryBlock(request, llm, decode).writes, StatusOf) == SuccessStatuses
  {
    var l := LayoutOf(request, llm, decode);
    ScriptShape(request, llm, decode);
    KickoffViews(); ArchitectDoneViews(l.reply); DatabaseStatusViews(); StagesViews();
    ConstructionQuiet(PlanPhases(l.plan)); QaOpeningViews(); QaClosingViews(l.report);
    StatusPieces();
    Chain(Kickoff, ArchitectDone(l.reply), [DatabaseStatus], Stages, ConstructionBlock(PlanPhases(l.plan)).writes,
          QaOpening, QaClosing(l.report), StatusOf, SuccessStatuses);
  }

  lemma ScriptOpenStatuses(request: string, llm: Prompt -> Option<string>, decode: string -> Option<Json>)
    ensures TryBlock(request, llm, decode).ending.Threw? ==>
      Project(TryBlock(request, llm, decode).writes, StatusOf) <= SuccessStatuses[..5]
  {
    var l := LayoutOf(request, llm, decode);
    ScriptShape(request, llm, decode);
    KickoffViews(); ArchitectDoneViews(l.reply); DatabaseStatusViews(); StagesViews();
    ConstructionQuiet(PlanPhases(l.plan)); QaOpeningViews();
    OpenStatusPieces();
    assert Project([], StatusOf) == [];
    Chain(Kickoff, ArchitectDone(l.reply), [DatabaseStatus], Stages, ConstructionBlock(PlanPhases(l.plan)).writes,
          QaOpening, [], StatusOf, SuccessStatuses[..5]);
  }

  lemma ScriptLastWrite(request: string, llm: Prompt -> Option<string>, decode: string -> Option<Json>)
    ensures var ws := TryBlock(request, llm, decode).writes;
      TryBlock(request, llm, decode).ending.Finished? ==>
        |ws| > 0 && ws[|ws| - 1] == SetStatus(Schema.Completed, None)
  {
    var l := LayoutOf(request, llm, decode);
    ScriptShape(request, llm, decode);
    var full := Kickoff + ArchitectDone(l.reply) + [DatabaseStatus] + Stages + ConstructionBlock(PlanPhases(l.plan)).writes
      + QaOpening + QaClosing(l.report);
    assert full[|full| - 1] == QaClosing(l.report)[|QaClosing(l.report)| - 1];
  }

  /** The try block creates a prefix of the five role tasks in order, and all five when it returns. */
  lemma ScriptRoles(request: string, llm: Prompt -> Option<string>, decode: string -> Option<Json>)
    ensures Project(TryBlock(request, llm, decode).writes, RoleOf) <= TaskOrder
    ensures TryBlock(request, llm, decode).ending.Finished? ==>
      Project(TryBlock(request, llm, decode).writes, RoleOf) == TaskOrder
  {
    var l := LayoutOf(request, llm, decode);
    ScriptShape(request, llm, decode);
    KickoffViews(); ArchitectDoneViews(l.reply); DatabaseStatusViews(); StagesViews();
    ConstructionQuiet(PlanPhases(l.plan)); QaOpeningViews(); QaClosingViews(l.report);
    RolePieces();
    Chain(Kickoff, ArchitectDone(l.reply), [DatabaseStatus], Stages, ConstructionBlock(PlanPhases(l.plan)).writes,
          QaOpening, QaClosing(l.report), RoleOf, TaskOrder);
  }

  /** The try block completes tasks 0 to 4 in creation order (a prefix of them when it throws). */
  lemma ScriptCompletions(request: string, llm: Prompt -> Option<string>, decode: string -> Option<Json>)
    ensures Project(TryBlock(request, llm, decode).writes, CompletionOf) <= CompletionOrder
    ensures TryBlock(request, llm, decode).ending.Finished? ==>
      Project(TryBlock(request, llm, decode).writes, CompletionOf) == CompletionOrder
  {
    var l := LayoutOf(request, llm, decode);
    ScriptShape(request, llm, decode);
    KickoffViews(); ArchitectDoneViews(l.reply); DatabaseStatusViews(); StagesViews();
    ConstructionQuiet(PlanPhases(l.plan)); QaOpeningViews(); QaClosingViews(l.report);
    CompletionPieces();
    Chain(Kickoff, ArchitectDone(l.reply), [DatabaseStatus], Stages, ConstructionBlock(PlanPhases(l.plan)).writes,
          QaOpening, QaClosing(l.report), CompletionOf, CompletionOrder);
  }

  /**
   * The buildings the try block creates are a prefix of the plan's
   * records, in phase order and then entity order, and all of them when it
   * returns; without an architect reply it creates none.
   */
  lemma ScriptBuildings(request: string, llm: Prompt -> Option<string>, decode: string -> Option<Json>)
    ensures PlanOf(request, llm, decode).None? ==> Project(TryBlock(request, llm, decode).writes, BuildingOf) == []
    ensures PlanOf(request, llm, decode).Some? ==>
      Project(TryBlock(request, llm, decode).writes, BuildingOf) <= Plan.Materialize(PlanOf(request, llm, decode).value)
    ensures TryBlock(request, llm, decode).ending.Finished? ==>
      PlanOf(request, llm, decode).Some? &&
      Project(TryBlock(request, llm, decode).writes, BuildingOf) == Plan.Materialize(PlanOf(request, llm, decode).value)
  {
    var l := LayoutOf(request, llm, decode);
    var cw := ConstructionBlock(PlanPhases(l.plan)).writes;
    ScriptShape(request, llm, decode);
    KickoffViews(); ArchitectDoneViews(l.reply); DatabaseStatusViews(); StagesViews();
    ConstructionViews(PlanPhases(l.plan)); QaOpeningViews(); QaClosingViews(l.report);
    assert Plan.PlannedEntities(l.plan) == Plan.FlattenPhases(PlanPhases(l.plan));
    Lone(Kickoff, ArchitectDone(l.reply), [DatabaseStatus], Stages, cw, QaOpening, QaClosing(l.report), BuildingOf);
  }
}

