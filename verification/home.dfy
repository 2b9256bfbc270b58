/**
 * The pure rules of client/src/pages/Home.tsx: the start/access-code
 * gating of the build form, the progress bar, the five display phases and
 * the per-type tallies. Rendering, toasts' styling and polling are not
 * modelled; what the page decides is.
 */
module Home {
  import opened Wrappers
  import Schema
  import Extraction

  // ---------------------------------------------------------------------
  // Trimming
  // ---------------------------------------------------------------------

  /** The text without its leading whitespace. */
  function TrimStart(s: string): (r: string)
    ensures |r| <= |s| && r == s[|s| - |r|..]
    ensures |r| > 0 ==> !Extraction.IsSpace(r[0])
    ensures forall c :: 0 <= c < |s| - |r| ==> Extraction.IsSpace(s[c])
    decreases |s|
  {
    if |s| > 0 && Extraction.IsSpace(s[0]) then TrimStart(s[1..]) else s
  }

  /** The text without its trailing whitespace. */
  function TrimEnd(s: string): (r: string)
    ensures |r| <= |s| && r == s[..|r|]
    ensures |r| > 0 ==> !Extraction.IsSpace(r[|r| - 1])
    ensures forall c :: |r| <= c < |s| ==> Extraction.IsSpace(s[c])
    decreases |s|
  {
    if |s| > 0 && Extraction.IsSpace(s[|s| - 1]) then TrimEnd(s[..|s| - 1]) else s
  }

  /** `String.prototype.trim`. */
  function Trim(s: string): (r: string) {
    TrimEnd(TrimStart(s))
  }

  /** Trimming leaves a slice of the text that neither starts nor ends with whitespace, and only whitespace around it. */
  lemma TrimSlice(s: string)
    ensures exists a, b ::
      && 0 <= a <= b <= |s| && Trim(s) == s[a..b]
      && (forall c :: 0 <= c < a ==> Extraction.IsSpace(s[c]))
      && (forall c :: b <= c < |s| ==> Extraction.IsSpace(s[c]))
    ensures |Trim(s)| > 0 ==> !Extraction.IsSpace(Trim(s)[0]) && !Extraction.IsSpace(Trim(s)[|Trim(s)| - 1])
  {
    var t := TrimStart(s);
    var a := |s| - |t|;
    var r := TrimEnd(t);
    var b := a + |r|;
    assert t == s[a..];
    assert r == t[..|r|];
    assert r == s[a..b];
    assert Trim(s) == r;
    assert forall c :: 0 <= c < a ==> Extraction.IsSpace(s[c]);
    forall c | b <= c < |s|
      ensures Extraction.IsSpace(s[c])
    {
      assert s[c] == t[c - a];
    }
    assert 0 <= a <= b <= |s| && Trim(s) == s[a..b]
      && (forall c :: 0 <= c < a ==> Extraction.IsSpace(s[c]))
      && (forall c :: b <= c < |s| ==> Extraction.IsSpace(s[c]));
    if |r| > 0 {
      assert r[0] == t[0];
    }
  }

  /** The trimmed text is empty exactly when the text is all whitespace. */
  lemma TrimEmptyIff(s: string)
    ensures Trim(s) == "" <==> forall c :: 0 <= c < |s| ==> Extraction.IsSpace(s[c])
  {
  }

  /** Trimming twice is trimming once. */
  lemma TrimIdempotent(s: string)
    ensures Trim(Trim(s)) == Trim(s)
  {
    var r := Trim(s);
    TrimSlice(s);
    if |r| > 0 {
      assert TrimStart(r) == r;
    }
  }

  // ---------------------------------------------------------------------
  // Starting a build
  // ---------------------------------------------------------------------

  /** The code manual mode asks for. */
  const AccessCode := "COGNITECT2024"

  const AutoPrompt := "Create an innovative AI-powered virtual city with creative urban design"
  const AutoName := "Claude Autonomous City"
  const ManualName := "Custom City Project"
  const EmptyPromptMessage := "Please enter a prompt or enable Auto Mode"
  const BadCodeMessage := "Invalid access code"

  /** The form's state: typed prompt, mode switch, whether the code dialog is open, and the typed code. */
  datatype Form = Form(prompt: string, auto: bool, dialogOpen: bool, code: string)

  /** What a handler does besides updating the form: nothing, an error toast, or the `create` mutation. */
  datatype Effect = NoEffect | Toast(message: string) | CreateProject(name: string, prompt: string)

  /** `proceedWithBuilding`: the fixed prompt in auto mode, the trimmed prompt otherwise; an empty one is refused. */
  function Proceed(f: Form): (e: Effect)
    ensures e.CreateProject? ==> e.prompt != ""
    ensures e.CreateProject? <==> f.auto || Trim(f.prompt) != ""
    ensures e.CreateProject? && f.auto ==> e == CreateProject(AutoName, AutoPrompt)
    ensures e.CreateProject? && !f.auto ==> e == CreateProject(ManualName, Trim(f.prompt))
    ensures !e.CreateProject? ==> e == Toast(EmptyPromptMessage)
  {
    var finalPrompt := if f.auto then AutoPrompt else Trim(f.prompt);
    if finalPrompt == "" then Toast(EmptyPromptMessage)
    else CreateProject(if f.auto then AutoName else ManualName, finalPrompt)
  }

  /** `handleStartBuilding`: manual mode opens the code dialog instead of building. */
  function HandleStart(f: Form): (r: (Form, Effect))
    ensures !f.auto ==> r == (f.(dialogOpen := true), NoEffect)
    ensures f.auto ==> r == (f, Proceed(f))
  {
    if !f.auto then (f.(dialogOpen := true), NoEffect)
    else (f, Proceed(f))
  }

  /** `handleAccessCodeSubmit`: the right code closes and clears the dialog and proceeds; any other code is refused. */
  function SubmitCode(f: Form): (r: (Form, Effect))
    ensures f.code == AccessCode ==> r == (f.(dialogOpen := false, code := ""), Proceed(f))
    ensures f.code != AccessCode ==> r == (f, Toast(BadCodeMessage))
  {
    if f.code == AccessCode then (f.(dialogOpen := false, code := ""), Proceed(f))
    else (f, Toast(BadCodeMessage))
  }

  /** What the user can do on the form: edit the prompt or the code, flip the mode, or press one of the two buttons. */
  datatype Action = Start | Submit | TypePrompt(text: string) | TypeCode(text: string) | SetAuto(on: bool)

  function Handle(f: Form, a: Action): (Form, Effect) {
    match a
    case Start => HandleStart(f)
    case Submit => SubmitCode(f)
    case TypePrompt(t) => (f.(prompt := t), NoEffect)
    case TypeCode(t) => (f.(code := t), NoEffect)
    case SetAuto(on) => (f.(auto := on), NoEffect)
  }

  /** Plays a sequence of actions, collecting the effects. */
  function Replay(f: Form, actions: seq<Action>): (r: (Form, seq<Effect>))
    ensures |r.1| == |actions|
    decreases |actions|
  {
    if |actions| == 0 then (f, [])
    else
      var (g, e) := Handle(f, actions[0]);
      var (h, es) := Replay(g, actions[1..]);
      (h, [e] + es)
  }

  /** The k-th effect of a replay is what the k-th action does to the form the earlier actions left. */
  lemma {:induction false} ReplayAt(f: Form, actions: seq<Action>, k: nat)
    requires k < |actions|
    ensures Replay(f, actions).1[k] == Handle(Replay(f, actions[..k]).0, actions[k]).1
    decreases |actions|
  {
    if k > 0 {
      var g := Handle(f, actions[0]).0;
      ReplayAt(g, actions[1..], k - 1);
      assert actions[..k][1..] == actions[1..][..k - 1];
    }
  }

  /**
   * Gating: whatever the user does, a project is created in manual mode
   * only by a submit made while the typed code is the access code, and
   * then from the trimmed typed prompt, never an empty one; in auto mode
   * only ever from the fixed prompt.
   */
  lemma ManualModeGated(f: Form, actions: seq<Action>, k: nat)
    requires k < |actions|
    requires Replay(f, actions).1[k].CreateProject?
    ensures var g := Replay(f, actions[..k]).0;
      !g.auto ==>
        && actions[k] == Submit && g.code == AccessCode
        && Trim(g.prompt) != ""
        && Replay(f, actions).1[k] == CreateProject(ManualName, Trim(g.prompt))
    ensures var g := Replay(f, actions[..k]).0;
      g.auto ==> Replay(f, actions).1[k] == CreateProject(AutoName, AutoPrompt)
  {
    ReplayAt(f, actions, k);
  }

  /** The first click in manual mode never creates a project, whatever the typed code: it can only open the dialog. */
  lemma ManualStartOpensDialog(f: Form)
    requires !f.auto
    ensures HandleStart(f).1 == NoEffect && HandleStart(f).0.dialogOpen
  {
  }

  /** Auto mode ignores what was typed: the fixed prompt is sent. */
  lemma AutoIgnoresPrompt(f: Form, typed: string)
    requires f.auto
    ensures HandleStart(f).1 == HandleStart(f.(prompt := typed)).1 == CreateProject(AutoName, AutoPrompt)
  {
  }

  // ---------------------------------------------------------------------
  // Progress and phases
  // ---------------------------------------------------------------------

  /** The fixed denominator of the progress bar, whatever the plan says. */
  const TargetBuildings := 50

  /** `buildings?.length || 0`. */
  function CountOf(buildings: Option<seq<Schema.BuildingRow>>): (n: nat)
    ensures buildings.Some? ==> n == |buildings.value|
    ensures buildings.None? ==> n == 0
  {
    if buildings.None? then 0 else |buildings.value|
  }

  /** `Math.min(count / 50 * 100, 100)`. */
  function Progress(count: nat): (p: real)
    ensures 0.0 <= p <= 100.0
    ensures p == 100.0 <==> count >= TargetBuildings
    ensures count < TargetBuildings ==> p == 2.0 * count as real
  {
    var raw := count as real / TargetBuildings as real * 100.0;
    if raw < 100.0 then raw else 100.0
  }

  /** Progress never decreases as buildings are added. */
  lemma ProgressMonotone(a: nat, b: nat)
    requires a <= b
    ensures Progress(a) <= Progress(b)
  {
  }

  /** A display phase covers the counts in `[lo, hi)`. */
  datatype Phase = Phase(name: string, lo: nat, hi: nat)

  const Phases: seq<Phase> := [
    Phase("Infrastructure", 0, 10),
    Phase("Commercial", 10, 22),
    Phase("Residential", 22, 34),
    Phase("Office", 34, 44),
    Phase("Public Facilities", 44, 50)
  ]

  predicate Contains(p: Phase, count: nat) {
    p.lo <= count < p.hi
  }

  /** `phases.find(...)`: the first phase from index `i` on that contains the count. */
  function FindPhase(count: nat, i: nat): (r: Option<nat>)
    requires i <= |Phases|
    ensures r.Some? ==> i <= r.value < |Phases| && Contains(Phases[r.value], count)
    ensures r.Some? ==> forall j :: i <= j < r.value ==> !Contains(Phases[j], count)
    ensures r.None? ==> forall j :: i <= j < |Phases| ==> !Contains(Phases[j], count)
    decreases |Phases| - i
  {
    if i == |Phases| then None
    else if Contains(Phases[i], count) then Some(i)
    else FindPhase(count, i + 1)
  }

  /** `currentPhase`: the phase containing the count, else the last one. */
  function CurrentPhase(count: nat): (i: nat)
    ensures i < |Phases|
    ensures count < TargetBuildings ==> Contains(Phases[i], count)
    ensures count >= TargetBuildings ==> i == |Phases| - 1
  {
    PhasesPartition();
    match FindPhase(count, 0)
    case Some(i) => i
    case None => |Phases| - 1
  }

  /** The phases are non-empty, contiguous, and together cover exactly `[0, 50)`. */
  lemma PhasesPartition()
    ensures Phases[0].lo == 0 && Phases[|Phases| - 1].hi == TargetBuildings
    ensures forall i :: 0 <= i < |Phases| ==> Phases[i].lo < Phases[i].hi
    ensures forall i :: 0 <= i < |Phases| - 1 ==> Phases[i].hi == Phases[i + 1].lo
    ensures forall count: nat :: count < TargetBuildings <==> FindPhase(count, 0).Some?
  {
  }

  /**
   * The current phase is the only one containing a count below 50; any
   * count from 50 on shows "Public Facilities".
   */
  lemma CurrentPhaseUnique(count: nat)
    ensures count < TargetBuildings ==>
      forall j :: 0 <= j < |Phases| ==> (Contains(Phases[j], count) <==> j == CurrentPhase(count))
    ensures count >= TargetBuildings ==> Phases[CurrentPhase(count)].name == "Public Facilities"
  {
    PhasesPartition();
  }

  /** `isCompleted`: the count has reached the phase's end. */
  predicate IsCompleted(i: nat, count: nat)
    requires i < |Phases|
  {
    count >= Phases[i].hi
  }

  /** `isActive`: compares names, which are distinct, so it marks exactly the current phase. */
  predicate IsActive(i: nat, count: nat)
    requires i < |Phases|
  {
    Phases[i].name == Phases[CurrentPhase(count)].name
  }

  lemma ActiveIffCurrent(i: nat, count: nat)
    requires i < |Phases|
    ensures IsActive(i, count) <==> i == CurrentPhase(count)
  {
  }

  /**
   * Below 50 the completed phases are exactly those before the active one,
   * so the active phase is never also ticked; from 50 on every phase is
   * completed, the active last one included.
   */
  lemma CompletedBeforeActive(i: nat, count: nat)
    requires i < |Phases|
    ensures count < TargetBuildings ==> (IsCompleted(i, count) <==> i < CurrentPhase(count))
    ensures count >= TargetBuildings ==> IsCompleted(i, count)
  {
    PhasesPartition();
    CurrentPhaseUnique(count);
  }

  // ---------------------------------------------------------------------
  // Tallies
  // ---------------------------------------------------------------------

  /** The number of buildings whose type satisfies `keep`. */
  function CountWhere(bs: seq<Schema.BuildingRow>, keep: string -> bool): (n: nat)
    ensures n <= |bs|
    decreases |bs|
  {
    if |bs| == 0 then 0
    else (if keep(bs[0].kind) then 1 else 0) + CountWhere(bs[1..], keep)
  }

  function IsInfrastructure(kind: string): bool { kind == "park" || kind == "road" }
  function IsCommercial(kind: string): bool { kind == "commercial" }
  function IsResidential(kind: string): bool { kind == "residential" }

  /** The three tallies of the statistics card (`?.length || 0`, so no list counts 0). */
  datatype Tallies = Tallies(infrastructure: nat, commercial: nat, residential: nat)

  function TalliesOf(buildings: Option<seq<Schema.BuildingRow>>): (t: Tallies)
    ensures buildings.None? ==> t == Tallies(0, 0, 0)
    ensures buildings.Some? ==>
      t.infrastructure <= |buildings.value| && t.commercial <= |buildings.value| && t.residential <= |buildings.value|
  {
    match buildings
    case None => Tallies(0, 0, 0)
    case Some(bs) => Tallies(CountWhere(bs, IsInfrastructure), CountWhere(bs, IsCommercial), CountWhere(bs, IsResidential))
  }

  /** Counting over a concatenation adds the counts. */
  lemma {:induction false} CountWhereAppend(a: seq<Schema.BuildingRow>, b: seq<Schema.BuildingRow>, keep: string -> bool)
    ensures CountWhere(a + b, keep) == CountWhere(a, keep) + CountWhere(b, keep)
    decreases |a|
  {
    if |a| > 0 {
      assert (a + b)[1..] == a[1..] + b;
      CountWhereAppend(a[1..], b, keep);
    } else {
      assert a + b == b;
    }
  }

  /**
   * The tallies never overlap: together they count each building at most
   * once, and exactly the buildings of the three kinds; every other type
   * (`office`, say) shows only in the total.
   */
  lemma {:induction false} TalliesDisjoint(bs: seq<Schema.BuildingRow>)
    ensures var t := TalliesOf(Some(bs));
      t.infrastructure + t.commercial + t.residential ==
        CountWhere(bs, (k: string) => IsInfrastructure(k) || IsCommercial(k) || IsResidential(k))
    ensures var t := TalliesOf(Some(bs));
      t.infrastructure + t.commercial + t.residential <= CountOf(Some(bs))
    decreases |bs|
  {
    if |bs| > 0 {
      TalliesDisjoint(bs[1..]);
    }
  }

  /** Adding a building raises exactly the tally of its own type, by one. */
  lemma TallyAdd(bs: seq<Schema.BuildingRow>, b: Schema.BuildingRow)
    ensures var t := TalliesOf(Some(bs)); var t' := TalliesOf(Some(bs + [b]));
      && t'.infrastructure == t.infrastructure + (if IsInfrastructure(b.kind) then 1 else 0)
      && t'.commercial == t.commercial + (if IsCommercial(b.kind) then 1 else 0)
      && t'.residential == t.residential + (if IsResidential(b.kind) then 1 else 0)
  {
    CountWhereAppend(bs, [b], IsInfrastructure);
    CountWhereAppend(bs, [b], IsCommercial);
    CountWhereAppend(bs, [b], IsResidential);
  }
}
