/**
 * The mesh bookkeeping of client/src/components/CityVisualization.tsx:
 * whenever the polled building list changes, the id-keyed mesh map is
 * brought in line with it. Missing ids get a new mesh built from the
 * building with defaults; ids no longer listed lose theirs; meshes of ids
 * still listed are left exactly as they are. The Three.js scene,
 * materials and the grow-in animation are not modelled beyond the
 * numbers a new mesh is given.
 */
module CityView {
  import opened Wrappers
  import Schema

  /** The numbers a new mesh is given: box size, colour and centre. */
  datatype Mesh = Mesh(width: int, height: int, depth: int, color: string, x: int, y: real, z: int)

  const DefaultHeight := 10
  const DefaultSide := 3
  const DefaultColor := "#10b981"

  /** `v || d` on a numeric column: 0 is falsy. */
  function OrInt(v: int, d: int): int {
    if v != 0 then v else d
  }

  /** `color || d`: a missing or empty colour is falsy. */
  function OrColor(c: Option<string>, d: string): string {
    if c.Some? && c.value != "" then c.value else d
  }

  /**
   * The mesh created for a building: each size and the colour as stored
   * unless falsy, then 3 wide and deep, 10 high, `#10b981`; x and z as
   * stored (`|| 0` changes no integer); standing on the ground at half its
   * height, whatever the stored elevation.
   */
  function MeshFor(b: Schema.BuildingRow): (m: Mesh)
    ensures m.height != 0 && m.width != 0 && m.depth != 0 && m.color != ""
    ensures m.y == m.height as real / 2.0
    ensures b.height != 0 ==> m.height == b.height
    ensures b.height == 0 ==> m.height == DefaultHeight
    ensures b.width != 0 ==> m.width == b.width
    ensures b.width == 0 ==> m.width == DefaultSide
    ensures b.depth != 0 ==> m.depth == b.depth
    ensures b.depth == 0 ==> m.depth == DefaultSide
    ensures b.color.Some? && b.color.value != "" ==> m.color == b.color.value
    ensures b.color.None? || b.color.value == "" ==> m.color == DefaultColor
    ensures m.x == b.positionX && m.z == b.positionZ
  {
    var height := OrInt(b.height, DefaultHeight);
    Mesh(OrInt(b.width, DefaultSide), height, OrInt(b.depth, DefaultSide),
         OrColor(b.color, DefaultColor), OrInt(b.positionX, 0), height as real / 2.0, OrInt(b.positionZ, 0))
  }

  /** A mesh depends on the building's numbers and colour only: not on its stored height above ground, id or name. */
  lemma MeshIgnoresElevation(b: Schema.BuildingRow, y: int, id: int, name: string)
    ensures MeshFor(b.(positionY := y, id := id, name := name)) == MeshFor(b)
    ensures b.width == 0 && b.depth == 0 && b.height == 0 && b.positionX == 0 && b.positionZ == 0 && b.color.None? ==>
      MeshFor(b) == Mesh(DefaultSide, DefaultHeight, DefaultSide, DefaultColor, 0, 5.0, 0)
  {
  }

  /** The ids in a building list. */
  function IdSet(bs: seq<Schema.BuildingRow>): set<int> {
    set b | b in bs :: b.id
  }

  /** `buildings.find(b => b.id === id)`: the first building with that id. */
  function FindById(bs: seq<Schema.BuildingRow>, id: int): (r: Option<Schema.BuildingRow>)
    ensures r.Some? <==> id in IdSet(bs)
    ensures r.Some? ==> r.value in bs && r.value.id == id
    decreases |bs|
  {
    if |bs| == 0 then None
    else if bs[0].id == id then Some(bs[0])
    else
      assert bs == [bs[0]] + bs[1..];
      assert IdSet(bs) == IdSet(bs[1..]) + {bs[0].id};
      FindById(bs[1..], id)
  }

  /** The first building carrying an id that no earlier building carries is the one `find` returns for it. */
  lemma {:induction false} FindFirst(bs: seq<Schema.BuildingRow>, i: nat)
    requires i < |bs| && bs[i].id !in IdSet(bs[..i])
    ensures FindById(bs, bs[i].id) == Some(bs[i])
    decreases i
  {
    if i > 0 {
      assert bs[0] in bs[..i];
      var rest := bs[1..];
      assert rest[i - 1] == bs[i];
      assert IdSet(rest[..i - 1]) <= IdSet(bs[..i]) by {
        forall c | c in rest[..i - 1] ensures c in bs[..i] {
          var k :| 0 <= k < i - 1 && rest[..i - 1][k] == c;
          assert bs[..i][k + 1] == c;
        }
      }
      FindFirst(rest, i - 1);
    }
  }

  /** The mesh map after a sync, as a reference definition: one mesh per listed id, old ones kept. */
  function Reconciled(meshes: map<int, Mesh>, bs: seq<Schema.BuildingRow>): map<int, Mesh> {
    map id | id in IdSet(bs) :: if id in meshes then meshes[id] else MeshFor(FindById(bs, id).value)
  }

  /** The effect of the sync: nothing without a scene or a list, else the reconciled map. */
  function Synced(sceneReady: bool, buildings: Option<seq<Schema.BuildingRow>>, meshes: map<int, Mesh>): map<int, Mesh> {
    if !sceneReady || buildings.None? then meshes else Reconciled(meshes, buildings.value)
  }

  /** The first pass: every listed id without a mesh gets one, built from the first building with that id. */
  method AddMissing(bs: seq<Schema.BuildingRow>, meshes: map<int, Mesh>) returns (m: map<int, Mesh>)
    ensures forall id :: id in m <==> id in meshes || id in IdSet(bs)
    ensures forall id :: id in meshes ==> m[id] == meshes[id]
    ensures forall id :: id in m && id !in meshes ==> id in IdSet(bs) && m[id] == MeshFor(FindById(bs, id).value)
  {
    m := meshes;
    var i := 0;
    while i < |bs|
      invariant 0 <= i <= |bs|
      invariant forall id :: id in m <==> id in meshes || id in IdSet(bs[..i])
      invariant forall id :: id in meshes ==> m[id] == meshes[id]
      invariant forall id :: id in m && id !in meshes ==> id in IdSet(bs) && m[id] == MeshFor(FindById(bs, id).value)
    {
      var b := bs[i];
      assert bs[..i + 1] == bs[..i] + [b];
      assert IdSet(bs[..i + 1]) == IdSet(bs[..i]) + {b.id};
      if b.id !in m {
        FindFirst(bs, i);
        m := m[b.id := MeshFor(b)];
      }
      i := i + 1;
    }
    assert bs[..i] == bs;
  }

  /** The second pass: every mesh whose id the list no longer holds is deleted. */
  method DropStale(bs: seq<Schema.BuildingRow>, m: map<int, Mesh>) returns (out: map<int, Mesh>)
    ensures forall id :: id in out <==> id in m && id in IdSet(bs)
    ensures forall id :: id in out ==> out[id] == m[id]
  {
    var keys := m.Keys;
    out := m;
    while exists k :: k in keys
      invariant keys <= m.Keys
      invariant forall id :: id in out <==> id in m && (id in keys || id in IdSet(bs))
      invariant forall id :: id in out ==> out[id] == m[id]
      decreases |keys|
    {
      var id :| id in keys;
      if FindById(bs, id).None? {
        out := out - {id};
      }
      keys := keys - {id};
    }
  }

  /**
   * The update effect: nothing without a scene or a list; otherwise the
   * two passes, which leave one mesh per listed id and keep every mesh
   * whose id is still listed.
   */
  method SyncMeshes(sceneReady: bool, buildings: Option<seq<Schema.BuildingRow>>, meshes: map<int, Mesh>)
    returns (out: map<int, Mesh>)
    ensures !sceneReady || buildings.None? ==> out == meshes
    ensures sceneReady && buildings.Some? ==> out.Keys == IdSet(buildings.value)
    ensures forall id :: id in out && id in meshes ==> out[id] == meshes[id]
    ensures out == Synced(sceneReady, buildings, meshes)
  {
    if !sceneReady || buildings.None? {
      return meshes;
    }
    var bs := buildings.value;
    var m := AddMissing(bs, meshes);
    out := DropStale(bs, m);
    var r := Reconciled(meshes, bs);
    assert forall id :: id in out <==> id in r;
    assert out.Keys == r.Keys;
    assert forall id :: id in out ==> out[id] == r[id];
  }

  /** After a sync the meshes are keyed by exactly the listed ids. */
  lemma ReconciledKeys(meshes: map<int, Mesh>, bs: seq<Schema.BuildingRow>)
    ensures Reconciled(meshes, bs).Keys == IdSet(bs)
    ensures forall id :: id in meshes && id in IdSet(bs) ==> Reconciled(meshes, bs)[id] == meshes[id]
    ensures forall id :: id in IdSet(bs) && id !in meshes ==> Reconciled(meshes, bs)[id] == MeshFor(FindById(bs, id).value)
  {
  }

  /** A second sync with the same list changes nothing. */
  lemma ReconciledIdempotent(meshes: map<int, Mesh>, bs: seq<Schema.BuildingRow>)
    ensures Reconciled(Reconciled(meshes, bs), bs) == Reconciled(meshes, bs)
  {
  }

  /** Overwriting a building with one of the same id keeps the set of ids. */
  lemma SameIds(bs: seq<Schema.BuildingRow>, i: nat, b: Schema.BuildingRow)
    requires i < |bs| && b.id == bs[i].id
    ensures IdSet(bs[i := b]) == IdSet(bs)
  {
    var bs' := bs[i := b];
    forall id | id in IdSet(bs) ensures id in IdSet(bs') {
      var j :| 0 <= j < |bs| && bs[j].id == id;
      assert bs'[j].id == id;
    }
    forall id | id in IdSet(bs') ensures id in IdSet(bs) {
      var j :| 0 <= j < |bs'| && bs'[j].id == id;
      assert bs[j].id == id;
    }
  }

  /** Overwriting a building with one of the same id changes no other id's lookup. */
  lemma {:induction false} FindOtherId(bs: seq<Schema.BuildingRow>, i: nat, b: Schema.BuildingRow, id: int)
    requires i < |bs| && b.id == bs[i].id && id != b.id
    ensures FindById(bs[i := b], id) == FindById(bs, id)
    decreases |bs|
  {
    if i > 0 {
      assert bs[i := b][1..] == bs[1..][i - 1 := b];
      FindOtherId(bs[1..], i - 1, b, id);
    }
  }

  /**
   * A listed building whose fields changed keeps its old mesh: only a new
   * id gets a mesh built from the current fields.
   */
  lemma ChangedFieldsIgnored(meshes: map<int, Mesh>, bs: seq<Schema.BuildingRow>, i: nat, b: Schema.BuildingRow)
    requires i < |bs| && bs[i].id in meshes && b.id == bs[i].id
    ensures Reconciled(meshes, bs[i := b]) == Reconciled(meshes, bs)
  {
    SameIds(bs, i, b);
    forall id | id in IdSet(bs) && id !in meshes
      ensures FindById(bs[i := b], id) == FindById(bs, id)
    {
      FindOtherId(bs, i, b, id);
    }
  }
}
