/**
 * The plan the architect step produces (server/llmOrchestrator.ts): the
 * constant fallback plan, the choice between it and the decoded reply, the
 * `totalBuildings` sum, and the record handed to `createBuilding` for each
 * planned entity, with its `||` defaults.
 *
 * A decoded plan is an arbitrary `Json` value: the code never validates
 * phase counts, entity counts, types or positions.
 */
module Plan {
  import opened Wrappers
  import opened Errors
  import opened JsonValue
  import Extraction

  /** A planned entity written out in llmOrchestrator.ts, as typed values. */
  datatype Entity = Entity(
    name: string, kind: string,
    x: real, y: real, z: real,
    width: real, height: real, depth: real,
    color: string)

  /** The JSON object llmOrchestrator.ts writes for an entity. */
  function EntityJson(e: Entity): Json {
    JObj(map[
      "name" := JStr(e.name),
      "type" := JStr(e.kind),
      "position" := JObj(map["x" := JNum(e.x), "y" := JNum(e.y), "z" := JNum(e.z)]),
      "size" := JObj(map["width" := JNum(e.width), "height" := JNum(e.height), "depth" := JNum(e.depth)]),
      "color" := JStr(e.color)])
  }

  function EntitiesJson(es: seq<Entity>): (r: seq<Json>)
    ensures |r| == |es|
    ensures forall i :: 0 <= i < |es| ==> r[i] == EntityJson(es[i])
  {
    seq(|es|, i requires 0 <= i < |es| => EntityJson(es[i]))
  }

  /** The JSON object llmOrchestrator.ts writes for a phase. */
  function PhaseJson(number: real, name: string, es: seq<Entity>): Json {
    JObj(map["phase" := JNum(number), "name" := JStr(name), "buildings" := JArr(EntitiesJson(es))])
  }

  const InfrastructurePhase: seq<Entity> := [
    Entity("Main Avenue", "park", 0.0, 0.0, 0.0, 40.0, 0.3, 4.0, "#555555"),
    Entity("Central Park", "park", -15.0, 0.0, 15.0, 12.0, 0.5, 12.0, "#2d5016"),
    Entity("East Plaza", "park", 20.0, 0.0, 20.0, 8.0, 0.4, 8.0, "#3d6b1f"),
    Entity("West Garden", "park", -20.0, 0.0, -15.0, 10.0, 0.5, 10.0, "#2d5016")]

  const CommercialPhase: seq<Entity> := [
    Entity("Shopping Mall", "commercial", -12.0, 0.0, -8.0, 8.0, 7.0, 8.0, "#dc2626"),
    Entity("Market Center", "commercial", 15.0, 0.0, -10.0, 7.0, 6.0, 7.0, "#ea580c"),
    Entity("Restaurant District", "commercial", -25.0, 0.0, 5.0, 6.0, 5.0, 6.0, "#f97316"),
    Entity("Retail Plaza", "commercial", 25.0, 0.0, 8.0, 7.0, 6.0, 7.0, "#fb923c"),
    Entity("Business Center", "commercial", 8.0, 0.0, -25.0, 6.0, 7.0, 6.0, "#dc2626"),
    Entity("Trade Hub", "commercial", -8.0, 0.0, 25.0, 7.0, 6.0, 7.0, "#ea580c")]

  const ResidentialPhase: seq<Entity> := [
    Entity("Skyline Apartments", "residential", -18.0, 0.0, -20.0, 6.0, 15.0, 6.0, "#7c3aed"),
    Entity("Garden Residences", "residential", 18.0, 0.0, -18.0, 5.0, 12.0, 5.0, "#a855f7"),
    Entity("Harbor View Condos", "residential", -22.0, 0.0, 22.0, 6.0, 14.0, 6.0, "#8b5cf6"),
    Entity("Sunset Towers", "residential", 22.0, 0.0, 22.0, 5.0, 13.0, 5.0, "#a855f7"),
    Entity("Riverside Homes", "residential", 12.0, 0.0, 12.0, 5.0, 11.0, 5.0, "#7c3aed"),
    Entity("Parkside Living", "residential", -12.0, 0.0, 8.0, 5.0, 12.0, 5.0, "#9333ea")]

  const OfficePhase: seq<Entity> := [
    Entity("Corporate Tower A", "office", -10.0, 0.0, -28.0, 7.0, 22.0, 7.0, "#3b82f6"),
    Entity("Tech Hub", "office", 10.0, 0.0, -28.0, 6.0, 20.0, 6.0, "#0ea5e9"),
    Entity("Financial Center", "office", 28.0, 0.0, -5.0, 7.0, 24.0, 7.0, "#2563eb"),
    Entity("Innovation Plaza", "office", -28.0, 0.0, -8.0, 6.0, 18.0, 6.0, "#3b82f6"),
    Entity("Business Park", "office", 5.0, 0.0, -15.0, 6.0, 17.0, 6.0, "#0ea5e9")]

  /** The public facilities of the fallback plan are typed `commercial` in llmOrchestrator.ts. */
  const FacilitiesPhase: seq<Entity> := [
    Entity("City Hospital", "commercial", 0.0, 0.0, 28.0, 10.0, 10.0, 8.0, "#10b981"),
    Entity("Central Library", "commercial", -28.0, 0.0, -25.0, 9.0, 8.0, 7.0, "#14b8a6"),
    Entity("Community Center", "commercial", 28.0, 0.0, -22.0, 8.0, 9.0, 7.0, "#10b981")]

  const FallbackPhases: seq<Json> := [
    PhaseJson(1.0, "Public Infrastructure", InfrastructurePhase),
    PhaseJson(2.0, "Commercial District", CommercialPhase),
    PhaseJson(3.0, "Residential Area", ResidentialPhase),
    PhaseJson(4.0, "Office District", OfficePhase),
    PhaseJson(5.0, "Public Facilities", FacilitiesPhase)]

  /** The plan used when the architect's reply cannot be decoded. */
  const FallbackPlan: Json := JObj(map[
    "analysis" := JStr("Creating a comprehensive modern city with full grid coverage"),
    "phases" := JArr(FallbackPhases)])

  /** The fallback plan's entities in materialization order. */
  const FallbackEntities: seq<Entity> :=
    InfrastructurePhase + CommercialPhase + ResidentialPhase + OfficePhase + FacilitiesPhase

  /**
   * The plan a reply yields: the decoded candidate text when decoding
   * succeeds, whatever its shape; the fallback plan exactly when it throws.
   */
  function ParsePlan(reply: string, decode: string -> Option<Json>): (plan: Json)
    ensures decode(Extraction.Candidate(reply)).Some? ==> plan == decode(Extraction.Candidate(reply)).value
    ensures decode(Extraction.Candidate(reply)).None? ==> plan == FallbackPlan
  {
    match decode(Extraction.Candidate(reply))
    case Some(v) => v
    case None => FallbackPlan
  }

  /**
   * A plan the architect wraps in a `json` fence, after backtick-free prose
   * and before text with no `}`, is decoded from exactly the fenced object;
   * the fallback replaces it only when that object does not decode.
   */
  lemma FencedPlan(p: string, j: string, q: string, decode: string -> Option<Json>)
    requires forall c :: 0 <= c < |p| ==> p[c] != '`'
    requires forall c :: 0 <= c < |q| ==> q[c] != '}'
    requires 2 <= |j| && j[0] == '{' && j[|j| - 1] == '}'
    ensures decode(j).Some? ==> ParsePlan(p + Extraction.Fence + "json\n" + j + "\n" + Extraction.Fence + q, decode) == decode(j).value
    ensures decode(j).None? ==> ParsePlan(p + Extraction.Fence + "json\n" + j + "\n" + Extraction.Fence + q, decode) == FallbackPlan
  {
    Extraction.FencedRoundTrip(p, j, q);
  }

  /** A bare plan object between brace-free, backtick-free prose is decoded from exactly that object. */
  lemma BarePlan(p: string, j: string, q: string, decode: string -> Option<Json>)
    requires forall c :: 0 <= c < |p| ==> p[c] != '`' && p[c] != '{'
    requires forall c :: 0 <= c < |j| ==> j[c] != '`'
    requires forall c :: 0 <= c < |q| ==> q[c] != '`' && q[c] != '}'
    requires 2 <= |j| && j[0] == '{' && j[|j| - 1] == '}'
    ensures decode(j).Some? ==> ParsePlan(p + j + q, decode) == decode(j).value
    ensures decode(j).None? ==> ParsePlan(p + j + q, decode) == FallbackPlan
  {
    Extraction.BareRoundTrip(p, j, q);
  }

  /** `phase.buildings` when it is an array (the construction loop's guard), else nothing. */
  function PhaseEntities(p: Json): seq<Json> {
    var b := Member(p, "buildings");
    if b.JArr? then b.items else []
  }

  /** The entities of a list of phases, phase by phase, in order. */
  function FlattenPhases(ps: seq<Json>): seq<Json>
    decreases |ps|
  {
    if |ps| == 0 then [] else FlattenPhases(ps[..|ps| - 1]) + PhaseEntities(ps[|ps| - 1])
  }

  /** The entities the construction loop visits: none unless `plan.phases` is an array. */
  function PlannedEntities(plan: Json): seq<Json> {
    var ph := Member(plan, "phases");
    if ph.JArr? then FlattenPhases(ph.items) else []
  }

  /** A number contributed to the sum; a non-number can only come from a `length` field of an object. */
  function CountValue(v: Json): real {
    if v.JNum? then v.n else 0.0
  }

  /** `p.buildings?.length || 0`: a phase's building count as the run reads it. */
  function ListLength(p: Json): Json {
    Or(Member(Member(p, "buildings"), "length"), JNum(0.0))
  }

  /**
   * A phase's term of the reduction fails on a nullish phase (reading
   * `buildings`) and on a count that `sum + count` cannot convert.
   */
  predicate CountThrows(p: Json) {
    Nullish(p) || ToStringThrows(ListLength(p))
  }

  /** One phase's term of the reduction: `p.buildings?.length || 0`, added to the running sum. */
  function PhaseCount(p: Json): (r: Result<real, Error>)
    ensures r.Err? <==> CountThrows(p)
    ensures r.Err? ==> r.error == TypeError
    ensures r.Ok? && Member(p, "buildings").JArr? ==> r.value == |PhaseEntities(p)| as real
    ensures r.Ok? && Nullish(Member(p, "buildings")) ==> r.value == 0.0
    ensures r.Ok? && Member(p, "buildings").JStr? ==> r.value == Utf16Length(Member(p, "buildings").s) as real
  {
    var b :- Access(p, "buildings");
    var c := Or(Member(b, "length"), JNum(0.0));
    if ToStringThrows(c) then Err(TypeError) else Ok(CountValue(c))
  }

  /** The reduction over an array of phases, left to right; the first phase whose term fails throws. */
  function SumCounts(ps: seq<Json>): (r: Result<real, Error>)
    ensures r.Err? <==> exists i :: 0 <= i < |ps| && CountThrows(ps[i])
    ensures r.Err? ==> r.error == TypeError
    decreases |ps|
  {
    if |ps| == 0 then Ok(0.0)
    else
      var acc :- SumCounts(ps[..|ps| - 1]);
      var c :- PhaseCount(ps[|ps| - 1]);
      Ok(acc + c)
  }

  /**
   * `plan.phases?.reduce(..., 0) || 0`: zero when `phases` is missing or
   * null, the sum over an array, and a TypeError on any other value (it has
   * no `reduce`) or on a nullish plan.
   */
  function TotalBuildings(plan: Json): (r: Result<real, Error>)
    ensures Nullish(plan) ==> r == Err(TypeError)
    ensures !Nullish(plan) && Nullish(Member(plan, "phases")) ==> r == Ok(0.0)
    ensures !Nullish(plan) && !Nullish(Member(plan, "phases")) && !Member(plan, "phases").JArr? ==> r == Err(TypeError)
    ensures Member(plan, "phases").JArr? ==> r == SumCounts(Member(plan, "phases").items)
  {
    var ph :- Access(plan, "phases");
    if Nullish(ph) then Ok(0.0)
    else if ph.JArr? then SumCounts(ph.items)
    else Err(TypeError)
  }

  /** `plan.phases?.length || 0`, the phase count the run reports. */
  function PhaseCountOf(plan: Json): Json {
    Or(Member(Member(plan, "phases"), "length"), JNum(0.0))
  }

  /**
   * The log line after parsing (llmOrchestrator.ts:282) reads
   * `plan.phases`, which throws on a nullish plan, and interpolates the
   * phase count, which throws when it cannot be converted.
   */
  predicate PlanLogThrows(plan: Json) {
    Nullish(plan) || ToStringThrows(PhaseCountOf(plan))
  }

  /**
   * A plan whose total reduces has an array of phases or none, so its
   * phase count is a number and the log line before the total does not
   * throw; the line throws for a nullish plan and for a `length` that
   * cannot be converted.
   */
  lemma ReducedPlanLogs(plan: Json)
    ensures TotalBuildings(plan).Ok? ==> !PlanLogThrows(plan)
    ensures Nullish(plan) ==> PlanLogThrows(plan)
    ensures PlanLogThrows(JObj(map["phases" := JObj(map["length" := JObj(map["toString" := JNum(0.0)])])]))
  {
  }

  /** Every phase is present and its building list is an array or missing. */
  predicate ListsAreArrays(plan: Json) {
    var ph := Member(plan, "phases");
    ph.JArr? &&
    forall i :: 0 <= i < |ph.items| ==>
      !Nullish(ph.items[i]) &&
      (Member(ph.items[i], "buildings").JArr? || Nullish(Member(ph.items[i], "buildings")))
  }

  lemma {:induction false} SumCountsArrays(ps: seq<Json>)
    requires forall i :: 0 <= i < |ps| ==>
      !Nullish(ps[i]) && (Member(ps[i], "buildings").JArr? || Nullish(Member(ps[i], "buildings")))
    ensures SumCounts(ps) == Ok(|FlattenPhases(ps)| as real)
    decreases |ps|
  {
    if |ps| > 0 {
      SumCountsArrays(ps[..|ps| - 1]);
    }
  }

  /**
   * When every phase's list is an array, `totalBuildings` is the number of
   * entities the construction loop visits.
   */
  lemma TotalMatchesEntities(plan: Json)
    requires ListsAreArrays(plan)
    ensures TotalBuildings(plan) == Ok(|PlannedEntities(plan)| as real)
  {
    SumCountsArrays(Member(plan, "phases").items);
  }

  /** The record handed to `createBuilding` (the project id is the run's own). */
  datatype BuildingFields = BuildingFields(
    name: Json, kind: Json,
    positionX: Json, positionY: Json, positionZ: Json,
    width: Json, height: Json, depth: Json,
    color: Json)

  const DefaultWidth: real := 3.0
  const DefaultHeight: real := 8.0
  const DefaultDepth: real := 3.0
  const DefaultColor: string := "#3b82f6"

  /**
   * The narration before each creation (llmOrchestrator.ts:534) reads
   * `building.name`, `building.position.x` and `building.size.width`, so
   * it throws when the entity, its position or its size is null or
   * missing; it also throws when one of the values it interpolates (name,
   * type, x, z, width, height, depth) cannot be converted to a string.
   */
  predicate NarrationThrows(b: Json) {
    || Nullish(b) || Nullish(Member(b, "position")) || Nullish(Member(b, "size"))
    || ToStringThrows(Member(b, "name")) || ToStringThrows(Member(b, "type"))
    || ToStringThrows(Member(Member(b, "position"), "x")) || ToStringThrows(Member(Member(b, "position"), "z"))
    || ToStringThrows(Member(Member(b, "size"), "width")) || ToStringThrows(Member(Member(b, "size"), "height"))
    || ToStringThrows(Member(Member(b, "size"), "depth"))
  }

  /** The third narration (llmOrchestrator.ts:542) interpolates the colour, after two narrations were written. */
  predicate ColorThrows(b: Json) {
    ToStringThrows(Member(b, "color"))
  }

  /** An entity whose narrations throw before its building is created. */
  predicate EntityThrows(b: Json) {
    NarrationThrows(b) || ColorThrows(b)
  }

  /**
   * A phase's opening narration (llmOrchestrator.ts:522) reads
   * `phase.phase`, so a nullish phase throws, and interpolates the phase
   * number, its name and its building count, which throw when they cannot
   * be converted.
   */
  predicate PhaseNarrationThrows(p: Json) {
    || Nullish(p) || ToStringThrows(Member(p, "phase")) || ToStringThrows(Member(p, "name"))
    || ToStringThrows(ListLength(p))
  }

  /**
   * The `createBuilding` record for an entity: name and type as given,
   * each coordinate `|| 0`, width and depth `|| 3`, height `|| 8`, colour
   * `|| "#3b82f6"`. A present truthy value is passed through unchanged.
   */
  function BuildingFieldsOf(b: Json): (f: BuildingFields)
    ensures f.name == Member(b, "name") && f.kind == Member(b, "type")
    ensures Truthy(f.width) && Truthy(f.height) && Truthy(f.depth) && Truthy(f.color)
    ensures Truthy(Member(Member(b, "size"), "width")) ==> f.width == Member(Member(b, "size"), "width")
    ensures !Truthy(Member(Member(b, "size"), "width")) ==> f.width == JNum(DefaultWidth)
    ensures Truthy(Member(Member(b, "size"), "height")) ==> f.height == Member(Member(b, "size"), "height")
    ensures !Truthy(Member(Member(b, "size"), "height")) ==> f.height == JNum(DefaultHeight)
    ensures Truthy(Member(Member(b, "size"), "depth")) ==> f.depth == Member(Member(b, "size"), "depth")
    ensures !Truthy(Member(Member(b, "size"), "depth")) ==> f.depth == JNum(DefaultDepth)
    ensures Truthy(Member(b, "color")) ==> f.color == Member(b, "color")
    ensures !Truthy(Member(b, "color")) ==> f.color == JStr(DefaultColor)
    ensures Truthy(Member(Member(b, "position"), "x")) ==> f.positionX == Member(Member(b, "position"), "x")
    ensures !Truthy(Member(Member(b, "position"), "x")) ==> f.positionX == JNum(0.0)
    ensures Truthy(Member(Member(b, "position"), "y")) ==> f.positionY == Member(Member(b, "position"), "y")
    ensures !Truthy(Member(Member(b, "position"), "y")) ==> f.positionY == JNum(0.0)
    ensures Truthy(Member(Member(b, "position"), "z")) ==> f.positionZ == Member(Member(b, "position"), "z")
    ensures !Truthy(Member(Member(b, "position"), "z")) ==> f.positionZ == JNum(0.0)
  {
    var pos := Member(b, "position");
    var size := Member(b, "size");
    BuildingFields(
      Member(b, "name"), Member(b, "type"),
      Or(Member(pos, "x"), JNum(0.0)), Or(Member(pos, "y"), JNum(0.0)), Or(Member(pos, "z"), JNum(0.0)),
      Or(Member(size, "width"), JNum(DefaultWidth)),
      Or(Member(size, "height"), JNum(DefaultHeight)),
      Or(Member(size, "depth"), JNum(DefaultDepth)),
      Or(Member(b, "color"), JStr(DefaultColor)))
  }

  /** The record an entity written out in llmOrchestrator.ts materializes to. */
  function EntityFields(e: Entity): BuildingFields {
    BuildingFields(
      JStr(e.name), JStr(e.kind), JNum(e.x), JNum(e.y), JNum(e.z),
      Or(JNum(e.width), JNum(DefaultWidth)),
      Or(JNum(e.height), JNum(DefaultHeight)),
      Or(JNum(e.depth), JNum(DefaultDepth)),
      Or(JStr(e.color), JStr(DefaultColor)))
  }

  /** The records for a list of entities, in order. */
  function MaterializeAll(es: seq<Json>): (r: seq<BuildingFields>)
    ensures |r| == |es|
    ensures forall i :: 0 <= i < |es| ==> r[i] == BuildingFieldsOf(es[i])
  {
    seq(|es|, i requires 0 <= i < |es| => BuildingFieldsOf(es[i]))
  }

  /** The records of a whole plan, in phase order and then entity order. */
  function Materialize(plan: Json): (r: seq<BuildingFields>)
    ensures |r| == |PlannedEntities(plan)|
    ensures forall i :: 0 <= i < |r| ==> r[i] == BuildingFieldsOf(PlannedEntities(plan)[i])
  {
    MaterializeAll(PlannedEntities(plan))
  }

  /** An entity written out in llmOrchestrator.ts survives the JSON round trip: it never throws and keeps its values. */
  lemma EntityMaterializes(e: Entity)
    ensures !EntityThrows(EntityJson(e))
    ensures Member(EntityJson(e), "type") == JStr(e.kind)
    ensures BuildingFieldsOf(EntityJson(e)) == EntityFields(e)
  {
  }

  lemma {:induction false} FlattenAppend(a: seq<Json>, b: seq<Json>)
    ensures FlattenPhases(a + b) == FlattenPhases(a) + FlattenPhases(b)
    decreases |b|
  {
    if |b| == 0 {
      assert a + b == a;
    } else {
      assert (a + b)[..|a + b| - 1] == a + b[..|b| - 1];
      FlattenAppend(a, b[..|b| - 1]);
    }
  }

  lemma PhaseJsonEntities(number: real, name: string, es: seq<Entity>)
    ensures PhaseEntities(PhaseJson(number, name, es)) == EntitiesJson(es)
    ensures FlattenPhases([PhaseJson(number, name, es)]) == EntitiesJson(es)
    ensures Member(PhaseJson(number, name, es), "phase") == JNum(number)
  {
    assert [PhaseJson(number, name, es)][..0] == [];
  }

  /** A written-out phase's own fields: its number and its entities. */
  lemma PhaseJsonFields(number: real, name: string, es: seq<Entity>)
    ensures PhaseEntities(PhaseJson(number, name, es)) == EntitiesJson(es)
    ensures Member(PhaseJson(number, name, es), "phase") == JNum(number)
  {
  }

  lemma PhaseJsonPresent(number: real, name: string, es: seq<Entity>)
    ensures !Nullish(PhaseJson(number, name, es)) && Member(PhaseJson(number, name, es), "buildings").JArr?
  {
  }

  /** A written-out phase's opening narration converts its number, name and count. */
  lemma PhaseJsonConverts(number: real, name: string, es: seq<Entity>)
    ensures !PhaseNarrationThrows(PhaseJson(number, name, es))
  {
    var p := PhaseJson(number, name, es);
    assert Member(p, "phase") == JNum(number) && Member(p, "name") == JStr(name);
    assert Member(Member(p, "buildings"), "length") == JNum(|es| as real);
  }

  lemma EntitiesJsonAppend(a: seq<Entity>, b: seq<Entity>)
    ensures EntitiesJson(a + b) == EntitiesJson(a) + EntitiesJson(b)
  {
  }

  /** The phases of the fallback plan, one after another, visit the entities written out for each. */
  lemma FallbackFlatten()
    ensures FlattenPhases(FallbackPhases) ==
      EntitiesJson(InfrastructurePhase) + EntitiesJson(CommercialPhase) + EntitiesJson(ResidentialPhase)
      + EntitiesJson(OfficePhase) + EntitiesJson(FacilitiesPhase)
  {
    var p := FallbackPhases;
    assert p == [p[0]] + [p[1]] + [p[2]] + [p[3]] + [p[4]];
    FlattenAppend([p[0]] + [p[1]] + [p[2]] + [p[3]], [p[4]]);
    FlattenAppend([p[0]] + [p[1]] + [p[2]], [p[3]]);
    FlattenAppend([p[0]] + [p[1]], [p[2]]);
    FlattenAppend([p[0]], [p[1]]);
    PhaseJsonEntities(1.0, "Public Infrastructure", InfrastructurePhase);
    PhaseJsonEntities(2.0, "Commercial District", CommercialPhase);
    PhaseJsonEntities(3.0, "Residential Area", ResidentialPhase);
    PhaseJsonEntities(4.0, "Office District", OfficePhase);
    PhaseJsonEntities(5.0, "Public Facilities", FacilitiesPhase);
  }

  /** The fallback plan visits exactly the entities written out for it, in order. */
  lemma FallbackEntitiesInOrder()
    ensures PlannedEntities(FallbackPlan) == EntitiesJson(FallbackEntities)
  {
    FallbackPhasesOf();
    FallbackFlatten();
    EntitiesJsonAppend(InfrastructurePhase + CommercialPhase + ResidentialPhase + OfficePhase, FacilitiesPhase);
    EntitiesJsonAppend(InfrastructurePhase + CommercialPhase + ResidentialPhase, OfficePhase);
    EntitiesJsonAppend(InfrastructurePhase + CommercialPhase, ResidentialPhase);
    EntitiesJsonAppend(InfrastructurePhase, CommercialPhase);
  }

  /** The fallback plan's `phases` member is the array of its five phases. */
  lemma FallbackPhasesOf()
    ensures Member(FallbackPlan, "phases") == JArr(FallbackPhases) && |FallbackPhases| == 5
  {
  }

  /** The fallback plan's phases are numbered 1 to 5, in order. */
  lemma FallbackPhaseNumbers()
    ensures Member(FallbackPhases[0], "phase") == JNum(1.0) && Member(FallbackPhases[1], "phase") == JNum(2.0)
    ensures Member(FallbackPhases[2], "phase") == JNum(3.0) && Member(FallbackPhases[3], "phase") == JNum(4.0)
    ensures Member(FallbackPhases[4], "phase") == JNum(5.0)
  {
    PhaseJsonFields(1.0, "Public Infrastructure", InfrastructurePhase);
    PhaseJsonFields(2.0, "Commercial District", CommercialPhase);
    PhaseJsonFields(3.0, "Residential Area", ResidentialPhase);
    PhaseJsonFields(4.0, "Office District", OfficePhase);
    PhaseJsonFields(5.0, "Public Facilities", FacilitiesPhase);
  }

  /** The fallback plan's five phases hold 4, 6, 6, 5 and 3 entities. */
  lemma FallbackPhaseSizes()
    ensures Member(FallbackPlan, "phases") == JArr(FallbackPhases) && |FallbackPhases| == 5
    ensures |PhaseEntities(FallbackPhases[0])| == 4 && |PhaseEntities(FallbackPhases[1])| == 6
    ensures |PhaseEntities(FallbackPhases[2])| == 6 && |PhaseEntities(FallbackPhases[3])| == 5
    ensures |PhaseEntities(FallbackPhases[4])| == 3
  {
    FallbackPhasesOf();
    PhaseJsonFields(1.0, "Public Infrastructure", InfrastructurePhase);
    PhaseJsonFields(2.0, "Commercial District", CommercialPhase);
    PhaseJsonFields(3.0, "Residential Area", ResidentialPhase);
    PhaseJsonFields(4.0, "Office District", OfficePhase);
    PhaseJsonFields(5.0, "Public Facilities", FacilitiesPhase);
  }

  /**
   * The fallback plan totals 24 entities, not the 50 the architect prompt
   * asks for, and every one of them is visited by the construction loop.
   */
  lemma FallbackTotal()
    ensures ListsAreArrays(FallbackPlan)
    ensures |FallbackEntities| == 24
    ensures |PlannedEntities(FallbackPlan)| == 24
    ensures TotalBuildings(FallbackPlan) == Ok(24.0)
  {
    FallbackListsAreArrays();
    FallbackEntitiesInOrder();
    TotalMatchesEntities(FallbackPlan);
  }

  lemma FallbackListsAreArrays()
    ensures ListsAreArrays(FallbackPlan)
  {
    FallbackPhasesOf();
    PhaseJsonPresent(1.0, "Public Infrastructure", InfrastructurePhase);
    PhaseJsonPresent(2.0, "Commercial District", CommercialPhase);
    PhaseJsonPresent(3.0, "Residential Area", ResidentialPhase);
    PhaseJsonPresent(4.0, "Office District", OfficePhase);
    PhaseJsonPresent(5.0, "Public Facilities", FacilitiesPhase);
  }

  /** The opening narration of every fallback phase converts its values. */
  lemma FallbackPhasesConvert()
    ensures forall i :: 0 <= i < |FallbackPhases| ==> !PhaseNarrationThrows(FallbackPhases[i])
  {
    forall i | 0 <= i < |FallbackPhases|
      ensures !PhaseNarrationThrows(FallbackPhases[i])
    {
      if i == 0 { PhaseJsonConverts(1.0, "Public Infrastructure", InfrastructurePhase); }
      else if i == 1 { PhaseJsonConverts(2.0, "Commercial District", CommercialPhase); }
      else if i == 2 { PhaseJsonConverts(3.0, "Residential Area", ResidentialPhase); }
      else if i == 3 { PhaseJsonConverts(4.0, "Office District", OfficePhase); }
      else { PhaseJsonConverts(5.0, "Public Facilities", FacilitiesPhase); }
    }
  }

  /** Every fallback entity is typed park, commercial, residential or office. */
  lemma FallbackKinds()
    ensures forall e :: e in FallbackEntities ==> e.kind in {"park", "commercial", "residential", "office"}
  {
  }

  /** Every fallback entity materializes whole: none throws, and each record keeps the entity's values. */
  lemma FallbackMaterializes()
    ensures forall b :: b in PlannedEntities(FallbackPlan) ==> !EntityThrows(b)
    ensures Materialize(FallbackPlan) ==
      seq(|FallbackEntities|, i requires 0 <= i < |FallbackEntities| => EntityFields(FallbackEntities[i]))
  {
    FallbackEntitiesInOrder();
    forall b | b in PlannedEntities(FallbackPlan)
      ensures !EntityThrows(b)
    {
      var i :| 0 <= i < |FallbackEntities| && b == EntityJson(FallbackEntities[i]);
      EntityMaterializes(FallbackEntities[i]);
    }
    forall i | 0 <= i < |FallbackEntities|
      ensures BuildingFieldsOf(EntitiesJson(FallbackEntities)[i]) == EntityFields(FallbackEntities[i])
    {
      EntityMaterializes(FallbackEntities[i]);
    }
  }

  /**
   * No validation: whatever value the reply decodes to is the plan, however
   * many phases and entities it has, and when its lists are arrays its
   * total is its own entity count, not the 50 the prompt asks for.
   */
  lemma DecodedPlanKeptUnvalidated(reply: string, decode: string -> Option<Json>, v: Json)
    requires decode(Extraction.Candidate(reply)) == Some(v)
    ensures ParsePlan(reply, decode) == v
    ensures ListsAreArrays(v) ==> TotalBuildings(ParsePlan(reply, decode)) == Ok(|PlannedEntities(v)| as real)
  {
    if ListsAreArrays(v) {
      TotalMatchesEntities(v);
    }
  }

  /**
   * A reply that decodes to a one-phase, one-entity plan is kept, though
   * the prompt demands 10, 12, 12, 10 and 6 entities per phase.
   */
  lemma OneEntityPlanKept(reply: string, decode: string -> Option<Json>, e: Entity)
    requires decode(Extraction.Candidate(reply)) == Some(JObj(map["phases" := JArr([PhaseJson(1.0, "Only", [e])])]))
    ensures ParsePlan(reply, decode) != FallbackPlan
    ensures TotalBuildings(ParsePlan(reply, decode)) == Ok(1.0)
  {
    OnePhaseTotal(e);
    FallbackTotal();
  }

  lemma OnePhaseTotal(e: Entity)
    ensures TotalBuildings(JObj(map["phases" := JArr([PhaseJson(1.0, "Only", [e])])])) == Ok(1.0)
  {
    var p := PhaseJson(1.0, "Only", [e]);
    PhaseJsonEntities(1.0, "Only", [e]);
    assert PhaseCount(p) == Ok(1.0);
    assert [p][..0] == [];
    assert SumCounts([p]) == Ok(1.0);
  }
}
