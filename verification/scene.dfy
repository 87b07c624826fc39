/**
  What both renderers share: the renderable entities, the per-frame queues
  they are submitted into, the camera, clip planes, the skybox view matrix,
  and the abstract draw trace a frame produces, with the loops that build
  it (one draw per mesh, one draw per light, forward shading of one mesh,
  shadow-map capture).

  A frame is observed only through its trace: a `SceneBegin` for every
  scene render (with its target, viewport, camera and clip plane) and one
  `Draw` per draw call, carrying the full GL state it was issued under.
 */
module Scene {
  import opened GlState

  // ---------------------------------------------------------------- camera, planes, matrices

  /** The camera fields the renderers read or mutate; the view/projection maths is left opaque. */
  datatype Camera = Camera(x: real, y: real, z: real, pitch: real, yaw: real, roll: real)

  /** A clip plane (a, b, c, d): a vertex is kept when a*x + b*y + c*z + d >= 0. */
  datatype Plane = Plane(a: real, b: real, c: real, d: real)

  /** The plane passed for an ordinary (non-water) scene render. */
  const ZeroPlane: Plane := Plane(0.0, 0.0, 0.0, 0.0)

  /** Whether a horizontal plane (a = c = 0) keeps a vertex at height y. */
  predicate KeepsHeight(p: Plane, y: real) {
    p.b * y + p.d >= 0.0
  }

  /** A 4x4 matrix stored column-major as glm does: m[column][row]. */
  type Mat4 = m: seq<seq<real>> | |m| == 4 && forall i :: 0 <= i < 4 ==> |m[i]| == 4
    witness [[1.0, 0.0, 0.0, 0.0], [0.0, 1.0, 0.0, 0.0], [0.0, 0.0, 1.0, 0.0], [0.0, 0.0, 0.0, 1.0]]

  /**
    The skybox view: the camera view with its translation removed, so the sky
    rotates with the camera but never moves with it. Exactly the three
    entries [3][0], [3][1], [3][2] become zero; the other thirteen are kept.
   */
  function ZeroTranslation(m: Mat4): (r: Mat4)
    ensures forall i, j :: 0 <= i < 4 && 0 <= j < 4 ==>
      r[i][j] == (if i == 3 && j < 3 then 0.0 else m[i][j])
  {
    m[3 := [0.0, 0.0, 0.0, m[3][3]]]
  }

  lemma ZeroTranslationIdempotent(m: Mat4)
    ensures ZeroTranslation(ZeroTranslation(m)) == ZeroTranslation(m)
  {
  }

  // ---------------------------------------------------------------- entities and queues

  // Entities are borrowed by handle; their meshes, materials and transforms
  // only feed GPU maths that is not modelled.
  datatype Object = Object(handle: nat)
  datatype Terrain = Terrain(handle: nat)
  datatype DirectionalLight = DirectionalLight(handle: nat)
  datatype PointLight = PointLight(handle: nat)
  datatype SpotLight = SpotLight(handle: nat)
  datatype Sprite = Sprite(handle: nat)
  datatype Cubemap = Cubemap(handle: nat)

  /** A water tile: its position (only the height matters to the renderer) and its 2D scale. */
  datatype Water = Water(x: real, y: real, z: real, scaleX: real, scaleZ: real)

  /** Anything a collaborator can submit for one frame. */
  datatype Renderable =
    | AnObject(object: Object)
    | ADirectionalLight(directional: DirectionalLight)
    | APointLight(point: PointLight)
    | ASpotLight(spot: SpotLight)
    | AWater(water: Water)
    | ATerrain(terrain: Terrain)
    | ASprite(sprite: Sprite)

  /** The seven per-frame queues. */
  datatype Kind = Objects | DirectionalLights | PointLights | SpotLights | Waters | Terrains | Sprites

  function KindOf(r: Renderable): Kind {
    match r
    case AnObject(_) => Objects
    case ADirectionalLight(_) => DirectionalLights
    case APointLight(_) => PointLights
    case ASpotLight(_) => SpotLights
    case AWater(_) => Waters
    case ATerrain(_) => Terrains
    case ASprite(_) => Sprites
  }

  datatype Queues = Queues(
    objects: seq<Object>,
    directionalLights: seq<DirectionalLight>,
    pointLights: seq<PointLight>,
    spotLights: seq<SpotLight>,
    waters: seq<Water>,
    terrains: seq<Terrain>,
    sprites: seq<Sprite>)

  const NoRenderables: Queues := Queues([], [], [], [], [], [], [])

  predicate IsEmpty(q: Queues) {
    && |q.objects| == 0
    && |q.directionalLights| == 0
    && |q.pointLights| == 0
    && |q.spotLights| == 0
    && |q.waters| == 0
    && |q.terrains| == 0
    && |q.sprites| == 0
  }

  /** One queue, viewed as the renderables it holds. */
  function Queue(q: Queues, k: Kind): seq<Renderable> {
    match k
    case Objects => seq(|q.objects|, i requires 0 <= i < |q.objects| => AnObject(q.objects[i]))
    case DirectionalLights =>
      seq(|q.directionalLights|, i requires 0 <= i < |q.directionalLights| => ADirectionalLight(q.directionalLights[i]))
    case PointLights => seq(|q.pointLights|, i requires 0 <= i < |q.pointLights| => APointLight(q.pointLights[i]))
    case SpotLights => seq(|q.spotLights|, i requires 0 <= i < |q.spotLights| => ASpotLight(q.spotLights[i]))
    case Waters => seq(|q.waters|, i requires 0 <= i < |q.waters| => AWater(q.waters[i]))
    case Terrains => seq(|q.terrains|, i requires 0 <= i < |q.terrains| => ATerrain(q.terrains[i]))
    case Sprites => seq(|q.sprites|, i requires 0 <= i < |q.sprites| => ASprite(q.sprites[i]))
  }

  /**
    add_object, add_directional_light, add_point_light, add_spot_light,
    add_water, add_terrain, add_sprite: append to the renderable's own queue.
   */
  function Add(q: Queues, r: Renderable): (q': Queues)
    ensures Queue(q', KindOf(r)) == Queue(q, KindOf(r)) + [r]
    ensures forall k :: k != KindOf(r) ==> Queue(q', k) == Queue(q, k)
  {
    match r
    case AnObject(o) => q.(objects := q.objects + [o])
    case ADirectionalLight(l) => q.(directionalLights := q.directionalLights + [l])
    case APointLight(l) => q.(pointLights := q.pointLights + [l])
    case ASpotLight(l) => q.(spotLights := q.spotLights + [l])
    case AWater(w) => q.(waters := q.waters + [w])
    case ATerrain(t) => q.(terrains := q.terrains + [t])
    case ASprite(s) => q.(sprites := q.sprites + [s])
  }

  /** A sequence of submissions, in call order. */
  function AddAll(q: Queues, rs: seq<Renderable>): Queues
    decreases |rs|
  {
    if |rs| == 0 then q else AddAll(Add(q, rs[0]), rs[1..])
  }

  /** The submissions of one kind, in call order. */
  function OfKind(rs: seq<Renderable>, k: Kind): seq<Renderable>
    decreases |rs|
  {
    if |rs| == 0 then [] else (if KindOf(rs[0]) == k then [rs[0]] else []) + OfKind(rs[1..], k)
  }

  /**
    Within a kind, insertion order is draw order: after any interleaving of
    submissions, each queue holds exactly that kind's submissions, in the
    order they were made.
   */
  lemma {:induction false} AddAllKeepsOrder(q: Queues, rs: seq<Renderable>, k: Kind)
    ensures Queue(AddAll(q, rs), k) == Queue(q, k) + OfKind(rs, k)
    decreases |rs|
  {
    if |rs| > 0 {
      var mine := OfKind([rs[0]], k);
      AddAllKeepsOrder(Add(q, rs[0]), rs[1..], k);
      AddOneOfKind(q, rs[0], k);
      assert OfKind(rs, k) == mine + OfKind(rs[1..], k);
      AppendAssociates(Queue(q, k), mine, OfKind(rs[1..], k));
    }
  }

  lemma AddOneOfKind(q: Queues, r: Renderable, k: Kind)
    ensures Queue(Add(q, r), k) == Queue(q, k) + OfKind([r], k)
    ensures OfKind([r], k) == if KindOf(r) == k then [r] else []
  {
    assert OfKind([r], k) == (if KindOf(r) == k then [r] else []) + OfKind([], k);
  }

  lemma AppendAssociates<T>(a: seq<T>, b: seq<T>, c: seq<T>)
    ensures (a + b) + c == a + (b + c)
  {
  }

  /** Submissions of different kinds may be made in either order. */
  lemma AddsOfDifferentKindsCommute(q: Queues, r1: Renderable, r2: Renderable)
    requires KindOf(r1) != KindOf(r2)
    ensures Add(Add(q, r1), r2) == Add(Add(q, r2), r1)
  {
  }

  // ---------------------------------------------------------------- draws and traces

  /** What a draw call draws. Indices are positions in the frame's queues. */
  datatype Item =
    | ObjectMesh(k: nat)
    | TerrainMesh(k: nat)
    | SkyboxCube(view: Mat4, environmentBound: bool)  // environmentBound: false when texture 0 is bound
    | LightMarker(k: nat)                             // the debug cube at point light k
    | WaterQuad(k: nat, reflectionBound: bool)        // reflectionBound: false when texture 0 is bound
    | SpriteQuad(k: nat)
    | ScreenQuad

  /** The queues whose entries are drawn one per entry. */
  datatype ItemList = ObjectList | TerrainList | SpriteList | MarkerList

  function ItemOf(list: ItemList, k: nat): Item {
    match list
    case ObjectList => ObjectMesh(k)
    case TerrainList => TerrainMesh(k)
    case SpriteList => SpriteQuad(k)
    case MarkerList => LightMarker(k)
  }

  /** The queue position an item stands for in a list, or -1 when it is not from that list. */
  function IndexIn(list: ItemList, item: Item): (k: int)
    ensures k >= -1
    ensures k >= 0 ==> ItemOf(list, k) == item
  {
    match (list, item)
    case (ObjectList, ObjectMesh(j)) => j
    case (TerrainList, TerrainMesh(j)) => j
    case (SpriteList, SpriteQuad(j)) => j
    case (MarkerList, LightMarker(j)) => j
    case _ => -1
  }

  datatype LightKind = DirectionalKind | PointKind | SpotKind

  /** The light a draw is lit by: Unlit for ambient/base draws and unlit geometry. */
  datatype LightRef = Unlit | Directional(i: nat) | Point(i: nat) | Spot(i: nat)

  function LightOf(kind: LightKind, i: nat): LightRef {
    match kind
    case DirectionalKind => Directional(i)
    case PointKind => Point(i)
    case SpotKind => Spot(i)
  }

  /** The queue position of a light of the given kind, or -1. */
  function LightIndexIn(kind: LightKind, l: LightRef): (i: int)
    ensures i >= -1
    ensures i >= 0 ==> LightOf(kind, i) == l
  {
    match (kind, l)
    case (DirectionalKind, Directional(j)) => j
    case (PointKind, Point(j)) => j
    case (SpotKind, Spot(j)) => j
    case _ => -1
  }

  /** What the renderers are observed doing: starting a scene render, or issuing a draw call. */
  datatype Event =
    | SceneBegin(target: Framebuffer, width: int, height: int, eye: Camera, clip: Plane)
    | Draw(item: Item, light: LightRef, gl: Gl)

  /** The outcome of a pass: the GL state it leaves behind and the events it issued. */
  datatype Step = Step(gl: Gl, trace: seq<Event>)

  /** The scene renders of a trace, in order. */
  function Scenes(t: seq<Event>): seq<Event>
    decreases |t|
  {
    if |t| == 0 then [] else (if t[0].SceneBegin? then [t[0]] else []) + Scenes(t[1..])
  }

  /**
    Which of the frame's closing passes an event belongs to by its own
    nature: 1 for a water quad, 2 for a sprite quad, 3 for the screen quad,
    0 for a scene render's events.
   */
  function QuadRank(e: Event): nat {
    if e.SceneBegin? then 0
    else match e.item
      case WaterQuad(_, _) => 1
      case SpriteQuad(_) => 2
      case ScreenQuad => 3
      case _ => 0
  }

  lemma {:induction false} ScenesAppend(a: seq<Event>, b: seq<Event>)
    ensures Scenes(a + b) == Scenes(a) + Scenes(b)
    decreases |a|
  {
    if |a| == 0 {
      assert a + b == b;
    } else {
      var ab := a + b;
      assert ab[0] == a[0];
      assert ab[1..] == a[1..] + b;
      ScenesAppend(a[1..], b);
      assert Scenes(ab) == (if a[0].SceneBegin? then [a[0]] else []) + Scenes(a[1..] + b);
    }
  }

  lemma {:induction false} NoScenes(t: seq<Event>)
    requires forall j :: 0 <= j < |t| ==> !t[j].SceneBegin?
    ensures Scenes(t) == []
    decreases |t|
  {
    if |t| > 0 {
      NoScenes(t[1..]);
    }
  }

  // ---------------------------------------------------------------- counting draws

  /** A draw of `item` lit by `light` issued while `program` was bound. */
  predicate Matches(e: Event, program: Program, item: Item, light: LightRef) {
    e.Draw? && e.gl.program == program && e.item == item && e.light == light
  }

  /** How many draws of `item` lit by `light` a trace issues with `program` bound. */
  function Count(t: seq<Event>, program: Program, item: Item, light: LightRef): nat
    decreases |t|
  {
    if |t| == 0 then 0
    else (if Matches(t[0], program, item, light) then 1 else 0) + Count(t[1..], program, item, light)
  }

  lemma {:induction false} CountAppend(a: seq<Event>, b: seq<Event>, program: Program, item: Item, light: LightRef)
    ensures Count(a + b, program, item, light) == Count(a, program, item, light) + Count(b, program, item, light)
    decreases |a|
  {
    if |a| == 0 {
      assert a + b == b;
    } else {
      assert (a + b)[1..] == a[1..] + b;
      CountAppend(a[1..], b, program, item, light);
    }
  }

  lemma {:induction false} CountNone(t: seq<Event>, program: Program, item: Item, light: LightRef)
    requires forall j :: 0 <= j < |t| ==> !Matches(t[j], program, item, light)
    ensures Count(t, program, item, light) == 0
    decreases |t|
  {
    if |t| > 0 {
      CountNone(t[1..], program, item, light);
    }
  }

  // ---------------------------------------------------------------- loops over queues

  /** `for (auto &x : list) draw(x)` over positions from..n, all under the same GL state. */
  function Each(list: ItemList, from: nat, n: nat, light: LightRef, gl: Gl): (t: seq<Event>)
    requires from <= n
    ensures |t| == n - from
    ensures forall j :: 0 <= j < |t| ==> t[j] == Draw(ItemOf(list, from + j), light, gl)
    decreases n - from
  {
    if from == n then [] else [Draw(ItemOf(list, from), light, gl)] + Each(list, from + 1, n, light, gl)
  }

  /** Each draws every listed position once and nothing else. */
  lemma {:induction false} EachCount(list: ItemList, from: nat, n: nat, light: LightRef, gl: Gl,
                                     program: Program, item: Item, l: LightRef)
    requires from <= n
    ensures Count(Each(list, from, n, light, gl), program, item, l)
         == if program == gl.program && l == light && from <= IndexIn(list, item) < n then 1 else 0
    decreases n - from
  {
    if from < n {
      var head := Draw(ItemOf(list, from), light, gl);
      CountCons(head, Each(list, from + 1, n, light, gl), program, item, l);
      EachCount(list, from + 1, n, light, gl, program, item, l);
      assert IndexIn(list, ItemOf(list, from)) == from;
    } else {
      assert Each(list, from, n, light, gl) == [];
    }
  }

  lemma CountCons(e: Event, t: seq<Event>, program: Program, item: Item, light: LightRef)
    ensures Count([e] + t, program, item, light) == (if Matches(e, program, item, light) then 1 else 0) + Count(t, program, item, light)
  {
    assert ([e] + t)[0] == e;
    assert ([e] + t)[1..] == t;
  }

  /** `for (auto &light : lights) draw(item)` over lights from..n of one kind. */
  function LightDraws(item: Item, kind: LightKind, from: nat, n: nat, gl: Gl): (t: seq<Event>)
    requires from <= n
    ensures |t| == n - from
    decreases n - from
  {
    if from == n then [] else [Draw(item, LightOf(kind, from), gl)] + LightDraws(item, kind, from + 1, n, gl)
  }

  /** The loop's k-th draw is the mesh under the kind's (from + k)-th light. */
  lemma {:induction false} LightDrawsAt(item: Item, kind: LightKind, from: nat, n: nat, gl: Gl)
    requires from <= n
    ensures forall j :: 0 <= j < n - from ==> LightDraws(item, kind, from, n, gl)[j] == Draw(item, LightOf(kind, from + j), gl)
    decreases n - from
  {
    if from < n {
      var t := LightDraws(item, kind, from, n, gl);
      var rest := LightDraws(item, kind, from + 1, n, gl);
      LightDrawsAt(item, kind, from + 1, n, gl);
      assert t == [Draw(item, LightOf(kind, from), gl)] + rest;
      forall j | 0 <= j < |t|
        ensures t[j] == Draw(item, LightOf(kind, from + j), gl)
      {
        if j > 0 {
          assert t[j] == rest[j - 1];
        }
      }
    }
  }

  lemma {:induction false} LightDrawsCount(item: Item, kind: LightKind, from: nat, n: nat, gl: Gl,
                                           program: Program, item': Item, l: LightRef)
    requires from <= n
    ensures Count(LightDraws(item, kind, from, n, gl), program, item', l)
         == if program == gl.program && item' == item && from <= LightIndexIn(kind, l) < n then 1 else 0
    decreases n - from
  {
    if from < n {
      var head := Draw(item, LightOf(kind, from), gl);
      CountCons(head, LightDraws(item, kind, from + 1, n, gl), program, item', l);
      LightDrawsCount(item, kind, from + 1, n, gl, program, item', l);
      assert LightIndexIn(kind, LightOf(kind, from)) == from;
    } else {
      assert LightDraws(item, kind, from, n, gl) == [];
    }
  }

  // ---------------------------------------------------------------- forward shading

  /** The programs of one forward-shading scheme: a base draw, then one program per light type. */
  datatype Shading = Shading(ambient: Program, directional: Program, point: Program, spot: Program)

  function ProgramFor(s: Shading, l: LightRef): Program {
    match l
    case Unlit => s.ambient
    case Directional(_) => s.directional
    case Point(_) => s.point
    case Spot(_) => s.spot
  }

  /** How many lights of each type take part in forward shading. */
  datatype Lights = Lights(directional: nat, point: nat, spot: nat)

  /** The lights a mesh is drawn under: the base draw (Unlit) and every queued light. */
  predicate Lit(lights: Lights, l: LightRef) {
    match l
    case Unlit => true
    case Directional(i) => i < lights.directional
    case Point(i) => i < lights.point
    case Spot(i) => i < lights.spot
  }

  /** The state after a mesh's lighting: program unbound, accumulation switched off, blend factors left at (ONE, ONE). */
  function Settled(gl: Gl): (r: Gl)
    ensures Opaque(r) && r.program == NoProgram && r.blendFunc == Additive
    ensures r.framebuffer == gl.framebuffer && r.clipDistance == gl.clipDistance && r.depthTest == gl.depthTest
  {
    EndAccumulation(BeginAccumulation(gl.(program := NoProgram)))
  }

  /** How many light draws forward shading adds to a mesh's base draw. */
  function LightCount(lights: Lights): nat {
    lights.directional + lights.point + lights.spot
  }

  /**
    The j-th light a mesh is accumulated under after its base draw: every
    directional light, then every point light, then every spot light, each
    in queue order.
   */
  function LightAt(lights: Lights, j: nat): (l: LightRef)
    requires j < LightCount(lights)
    ensures l != Unlit && Lit(lights, l)
  {
    if j < lights.directional then Directional(j)
    else if j < lights.directional + lights.point then Point(j - lights.directional)
    else Spot(j - lights.directional - lights.point)
  }

  /** Where a queued light comes in the accumulation order. */
  function LightSlot(lights: Lights, l: LightRef): (j: nat)
    requires l != Unlit && Lit(lights, l)
    ensures j < LightCount(lights) && LightAt(lights, j) == l
  {
    match l
    case Directional(i) => i
    case Point(i) => lights.directional + i
    case Spot(i) => lights.directional + lights.point + i
  }

  /** No light has two places in the accumulation order. */
  lemma LightAtInjective(lights: Lights, i: nat, j: nat)
    requires i < LightCount(lights) && j < LightCount(lights)
    requires LightAt(lights, i) == LightAt(lights, j)
    ensures i == j
  {
  }

  /** `if (lights.size() > 0) { program->bind(); for each light: draw; program->unbind(); }` */
  function LightBlock(item: Item, program: Program, kind: LightKind, count: nat, gl: Gl): (t: seq<Event>)
    ensures |t| == count
  {
    if count > 0 then LightDraws(item, kind, 0, count, gl.(program := program)) else []
  }

  /** The block's j-th draw is the mesh under the kind's j-th light, with the block's program bound. */
  lemma LightBlockAt(item: Item, program: Program, kind: LightKind, count: nat, gl: Gl)
    ensures forall j :: 0 <= j < count ==>
      LightBlock(item, program, kind, count, gl)[j] == Draw(item, LightOf(kind, j), gl.(program := program))
  {
    if count > 0 {
      LightDrawsAt(item, kind, 0, count, gl.(program := program));
    }
  }

  lemma LightBlockCount(item: Item, program: Program, kind: LightKind, count: nat, gl: Gl,
                        program': Program, item': Item, l: LightRef)
    ensures Count(LightBlock(item, program, kind, count, gl), program', item', l)
         == if program' == program && item' == item && 0 <= LightIndexIn(kind, l) < count then 1 else 0
  {
    if count > 0 {
      LightDrawsCount(item, kind, 0, count, gl.(program := program), program', item', l);
    }
  }

  /** One mesh's light draws: the directional, point and spot blocks in turn, each under its own program. */
  function LightSweep(item: Item, shading: Shading, lights: Lights, gl: Gl): (t: seq<Event>)
    ensures |t| == LightCount(lights)
  {
    LightBlock(item, shading.directional, DirectionalKind, lights.directional, gl)
      + LightBlock(item, shading.point, PointKind, lights.point, gl)
      + LightBlock(item, shading.spot, SpotKind, lights.spot, gl)
  }

  /** The sweep's j-th draw is the mesh under the j-th light of the accumulation order, with that light type's program. */
  lemma LightSweepAt(item: Item, shading: Shading, lights: Lights, gl: Gl)
    ensures forall j :: 0 <= j < LightCount(lights) ==>
      LightSweep(item, shading, lights, gl)[j] == Draw(item, LightAt(lights, j), gl.(program := ProgramFor(shading, LightAt(lights, j))))
  {
    var d := LightBlock(item, shading.directional, DirectionalKind, lights.directional, gl);
    var p := LightBlock(item, shading.point, PointKind, lights.point, gl);
    var s := LightBlock(item, shading.spot, SpotKind, lights.spot, gl);
    LightBlockAt(item, shading.directional, DirectionalKind, lights.directional, gl);
    LightBlockAt(item, shading.point, PointKind, lights.point, gl);
    LightBlockAt(item, shading.spot, SpotKind, lights.spot, gl);
    SweepOrder(item, shading, lights, gl, d, p, s);
  }

  lemma SweepOrder(item: Item, shading: Shading, lights: Lights, gl: Gl, d: seq<Event>, p: seq<Event>, s: seq<Event>)
    requires |d| == lights.directional && |p| == lights.point && |s| == lights.spot
    requires forall j :: 0 <= j < |d| ==> d[j] == Draw(item, Directional(j), gl.(program := shading.directional))
    requires forall j :: 0 <= j < |p| ==> p[j] == Draw(item, Point(j), gl.(program := shading.point))
    requires forall j :: 0 <= j < |s| ==> s[j] == Draw(item, Spot(j), gl.(program := shading.spot))
    ensures forall j :: 0 <= j < |d + p + s| ==>
      (d + p + s)[j] == Draw(item, LightAt(lights, j), gl.(program := ProgramFor(shading, LightAt(lights, j))))
  {
    var t := d + p + s;
    forall j | 0 <= j < |t|
      ensures t[j] == Draw(item, LightAt(lights, j), gl.(program := ProgramFor(shading, LightAt(lights, j))))
    {
      if j < |d| {
        assert t[j] == d[j];
      } else if j < |d| + |p| {
        assert t[j] == p[j - |d|];
      } else {
        assert t[j] == s[j - |d| - |p|];
      }
    }
  }

  /** The sweep draws the mesh once under every queued light, each with that light type's program, and nothing else. */
  lemma LightSweepCount(item: Item, shading: Shading, lights: Lights, gl: Gl, item': Item, l: LightRef)
    ensures Count(LightSweep(item, shading, lights, gl), ProgramFor(shading, l), item', l)
         == if item' == item && l != Unlit && Lit(lights, l) then 1 else 0
  {
    var d := LightBlock(item, shading.directional, DirectionalKind, lights.directional, gl);
    var p := LightBlock(item, shading.point, PointKind, lights.point, gl);
    var s := LightBlock(item, shading.spot, SpotKind, lights.spot, gl);
    var program := ProgramFor(shading, l);
    assert LightSweep(item, shading, lights, gl) == d + p + s;
    CountAppend(d + p, s, program, item', l);
    CountAppend(d, p, program, item', l);
    LightBlockCount(item, shading.directional, DirectionalKind, lights.directional, gl, program, item', l);
    LightBlockCount(item, shading.point, PointKind, lights.point, gl, program, item', l);
    LightBlockCount(item, shading.spot, SpotKind, lights.spot, gl, program, item', l);
  }

  /**
    Forward shading of one mesh: the base draw, then additive accumulation of
    every directional, point and spot light in turn, then the opaque state is
    restored. `bindAmbient` says whether the base program is bound for this
    mesh (when false the base draw uses whatever program is bound).
   */
  function LitMesh(item: Item, shading: Shading, lights: Lights, bindAmbient: bool, gl: Gl): (s: Step)
    ensures |s.trace| == 1 + LightCount(lights)
    ensures s.trace[0] == Draw(item, Unlit, if bindAmbient then gl.(program := shading.ambient) else gl)
    ensures s.gl == Settled(gl)
  {
    var base := if bindAmbient then gl.(program := shading.ambient) else gl;
    var accumulate := BeginAccumulation(base.(program := NoProgram));
    Step(EndAccumulation(accumulate), [Draw(item, Unlit, base)] + LightSweep(item, shading, lights, accumulate))
  }

  /** After the base draw, the mesh's j-th light draw accumulates the j-th light with that light type's program. */
  lemma LitMeshAt(item: Item, shading: Shading, lights: Lights, bindAmbient: bool, gl: Gl)
    ensures forall j :: 1 <= j <= LightCount(lights) ==>
      LitMesh(item, shading, lights, bindAmbient, gl).trace[j]
      == Draw(item, LightAt(lights, j - 1), BeginAccumulation(gl).(program := ProgramFor(shading, LightAt(lights, j - 1))))
  {
    var base := if bindAmbient then gl.(program := shading.ambient) else gl;
    var accumulate := BeginAccumulation(base.(program := NoProgram));
    var sweep := LightSweep(item, shading, lights, accumulate);
    var t := LitMesh(item, shading, lights, bindAmbient, gl).trace;
    LightSweepAt(item, shading, lights, accumulate);
    assert forall p: Program :: accumulate.(program := p) == BeginAccumulation(gl).(program := p);
    forall j | 1 <= j < |t|
      ensures t[j] == Draw(item, LightAt(lights, j - 1), BeginAccumulation(gl).(program := ProgramFor(shading, LightAt(lights, j - 1))))
    {
      assert t[j] == sweep[j - 1];
    }
  }

  /** A mesh with its base program bound gets one base draw and one draw per light, and nothing else. */
  lemma LitMeshCount(item: Item, shading: Shading, lights: Lights, gl: Gl, item': Item, l: LightRef)
    ensures Count(LitMesh(item, shading, lights, true, gl).trace, ProgramFor(shading, l), item', l)
         == if item' == item && Lit(lights, l) then 1 else 0
  {
    var base := gl.(program := shading.ambient);
    var first := [Draw(item, Unlit, base)];
    var sweep := LightSweep(item, shading, lights, BeginAccumulation(base.(program := NoProgram)));
    var p := ProgramFor(shading, l);
    assert LitMesh(item, shading, lights, true, gl).trace == first + sweep;
    CountAppend(first, sweep, p, item', l);
    LightSweepCount(item, shading, lights, BeginAccumulation(base.(program := NoProgram)), item', l);
    assert Count(first, p, item', l) == (if Matches(first[0], p, item', l) then 1 else 0) + Count(first[1..], p, item', l);
  }

  /** A mesh's only unlit draw is its base draw: under the ambient program when it binds one, else under the program it inherits. */
  lemma LitMeshBaseCount(item: Item, shading: Shading, lights: Lights, bindAmbient: bool, gl: Gl, program: Program, item': Item)
    ensures Count(LitMesh(item, shading, lights, bindAmbient, gl).trace, program, item', Unlit)
         == if item' == item && program == (if bindAmbient then shading.ambient else gl.program) then 1 else 0
  {
    var base := if bindAmbient then gl.(program := shading.ambient) else gl;
    var accumulate := BeginAccumulation(base.(program := NoProgram));
    var sweep := LightSweep(item, shading, lights, accumulate);
    assert LitMesh(item, shading, lights, bindAmbient, gl).trace[1..] == sweep;
    SweepHasNoUnlit(item, shading, lights, accumulate, program, item');
  }

  /** Light accumulation never issues an unlit draw. */
  lemma SweepHasNoUnlit(item: Item, shading: Shading, lights: Lights, gl: Gl, program: Program, item': Item)
    ensures Count(LightSweep(item, shading, lights, gl), program, item', Unlit) == 0
  {
    LightSweepAt(item, shading, lights, gl);
    CountNone(LightSweep(item, shading, lights, gl), program, item', Unlit);
  }

  /**
    What every draw of forward shading over listed meshes from..n looks like:
    a draw of one of those meshes under a light it is lit by, into the pass's
    framebuffer with its clipping and depth test; every light draw additive
    with that light type's program; every base draw opaque when the pass
    started opaque; and, when the base program is bound per mesh, every draw
    under the program of its light type.
   */
  predicate ShadedDraw(e: Event, list: ItemList, shading: Shading, lights: Lights, bindAmbient: bool,
                       from: nat, n: nat, gl: Gl) {
    && e.Draw?
    && from <= IndexIn(list, e.item) < n
    && Lit(lights, e.light)
    && e.gl.framebuffer == gl.framebuffer
    && e.gl.clipDistance == gl.clipDistance
    && e.gl.depthTest == gl.depthTest
    && (e.light != Unlit ==> Accumulating(e.gl) && e.gl.program == ProgramFor(shading, e.light))
    && (e.light == Unlit && Opaque(gl) ==> Opaque(e.gl))
    && (bindAmbient ==> e.gl.program == ProgramFor(shading, e.light))
  }

  /**
    Forward shading of listed meshes from..n, in queue order. Every light
    draw is additive; when the pass starts opaque, every base draw is opaque;
    afterwards the state is restored.
   */
  function LitMeshes(list: ItemList, shading: Shading, lights: Lights, bindAmbient: bool,
                     from: nat, n: nat, gl: Gl): (s: Step)
    requires from <= n
    ensures s.gl == if from < n then Settled(gl) else gl
    ensures forall j :: 0 <= j < |s.trace| ==> ShadedDraw(s.trace[j], list, shading, lights, bindAmbient, from, n, gl)
    decreases n - from
  {
    if from == n then Step(gl, [])
    else
      var first := LitMesh(ItemOf(list, from), shading, lights, bindAmbient, gl);
      var rest := LitMeshes(list, shading, lights, bindAmbient, from + 1, n, first.gl);
      MeshDraws(list, shading, lights, bindAmbient, from, n, gl);
      ShadedDrawsAppend(first.trace, rest.trace, list, shading, lights, bindAmbient, from, n, gl);
      Step(rest.gl, first.trace + rest.trace)
  }

  /** One mesh's forward shading satisfies what the pass promises of its draws. */
  lemma MeshDraws(list: ItemList, shading: Shading, lights: Lights, bindAmbient: bool, from: nat, n: nat, gl: Gl)
    requires from < n
    ensures var t := LitMesh(ItemOf(list, from), shading, lights, bindAmbient, gl).trace;
      forall j :: 0 <= j < |t| ==> ShadedDraw(t[j], list, shading, lights, bindAmbient, from, n, gl)
  {
    var t := LitMesh(ItemOf(list, from), shading, lights, bindAmbient, gl).trace;
    LitMeshAt(ItemOf(list, from), shading, lights, bindAmbient, gl);
    assert IndexIn(list, ItemOf(list, from)) == from;
    forall j | 0 <= j < |t|
      ensures ShadedDraw(t[j], list, shading, lights, bindAmbient, from, n, gl)
    {
      if j > 0 {
        var l := LightAt(lights, j - 1);
        assert t[j] == Draw(ItemOf(list, from), l, BeginAccumulation(gl).(program := ProgramFor(shading, l)));
      }
    }
  }

  lemma ShadedDrawsAppend(a: seq<Event>, b: seq<Event>, list: ItemList, shading: Shading, lights: Lights,
                          bindAmbient: bool, from: nat, n: nat, gl: Gl)
    requires from < n
    requires forall j :: 0 <= j < |a| ==> ShadedDraw(a[j], list, shading, lights, bindAmbient, from, n, gl)
    requires forall j :: 0 <= j < |b| ==> ShadedDraw(b[j], list, shading, lights, bindAmbient, from + 1, n, Settled(gl))
    ensures forall j :: 0 <= j < |a + b| ==> ShadedDraw((a + b)[j], list, shading, lights, bindAmbient, from, n, gl)
  {
    forall j | 0 <= j < |a + b|
      ensures ShadedDraw((a + b)[j], list, shading, lights, bindAmbient, from, n, gl)
    {
      if j >= |a| {
        assert (a + b)[j] == b[j - |a|];
      }
    }
  }

  /** With the base program bound per mesh: exactly one base draw and one draw per light for every listed mesh. */
  lemma {:induction false} LitMeshesCount(list: ItemList, shading: Shading, lights: Lights,
                                          from: nat, n: nat, gl: Gl, item: Item, l: LightRef)
    requires from <= n
    ensures Count(LitMeshes(list, shading, lights, true, from, n, gl).trace, ProgramFor(shading, l), item, l)
         == if from <= IndexIn(list, item) < n && Lit(lights, l) then 1 else 0
    decreases n - from
  {
    if from < n {
      LitMeshesHead(list, shading, lights, from, n, gl, item, l);
      LitMeshesCount(list, shading, lights, from + 1, n, Settled(gl), item, l);
      MeshCountStep(list, from, n, item, lights, l);
    } else {
      assert LitMeshes(list, shading, lights, true, from, n, gl).trace == [];
    }
  }

  /** Without the base program bound per mesh and starting from no program, every listed mesh from..n gets its base draw with no program bound. */
  lemma {:induction false} UnboundBaseCount(list: ItemList, shading: Shading, lights: Lights,
                                            from: nat, n: nat, gl: Gl, program: Program, item: Item)
    requires from <= n && gl.program == NoProgram
    ensures Count(LitMeshes(list, shading, lights, false, from, n, gl).trace, program, item, Unlit)
         == if from <= IndexIn(list, item) < n && program == NoProgram then 1 else 0
    decreases n - from
  {
    if from < n {
      UnboundBaseHead(list, shading, lights, from, n, gl, program, item);
      UnboundBaseCount(list, shading, lights, from + 1, n, Settled(gl), program, item);
      IndexStep(list, from, n, item, program == NoProgram);
    } else {
      assert LitMeshes(list, shading, lights, false, from, n, gl).trace == [];
    }
  }

  /** Without the base program bound per mesh, the first mesh's base draw runs under the inherited program; then come the remaining meshes. */
  lemma UnboundBaseHead(list: ItemList, shading: Shading, lights: Lights, from: nat, n: nat, gl: Gl, program: Program, item: Item)
    requires from < n
    ensures Count(LitMeshes(list, shading, lights, false, from, n, gl).trace, program, item, Unlit)
         == (if item == ItemOf(list, from) && program == gl.program then 1 else 0)
          + Count(LitMeshes(list, shading, lights, false, from + 1, n, Settled(gl)).trace, program, item, Unlit)
  {
    var first := LitMesh(ItemOf(list, from), shading, lights, false, gl);
    var rest := LitMeshes(list, shading, lights, false, from + 1, n, first.gl);
    CountAppend(first.trace, rest.trace, program, item, Unlit);
    LitMeshBaseCount(ItemOf(list, from), shading, lights, false, gl, program, item);
  }

  /** Mesh `from` followed by meshes from+1..n are the meshes from..n. */
  lemma IndexStep(list: ItemList, from: nat, n: nat, item: Item, b: bool)
    requires from < n
    ensures (if item == ItemOf(list, from) && b then 1 else 0) + (if from + 1 <= IndexIn(list, item) < n && b then 1 else 0)
         == if from <= IndexIn(list, item) < n && b then 1 else 0
  {
    assert IndexIn(list, ItemOf(list, from)) == from;
  }

  /** The first mesh's draws and the remaining meshes' draws add up to one draw per listed mesh. */
  lemma MeshCountStep(list: ItemList, from: nat, n: nat, item: Item, lights: Lights, l: LightRef)
    requires from < n
    ensures (if item == ItemOf(list, from) && Lit(lights, l) then 1 else 0)
          + (if from + 1 <= IndexIn(list, item) < n && Lit(lights, l) then 1 else 0)
         == if from <= IndexIn(list, item) < n && Lit(lights, l) then 1 else 0
  {
    assert IndexIn(list, ItemOf(list, from)) == from;
  }

  /** The first mesh is drawn once per light it is lit by; then come the remaining meshes. */
  lemma LitMeshesHead(list: ItemList, shading: Shading, lights: Lights, from: nat, n: nat, gl: Gl, item: Item, l: LightRef)
    requires from < n
    ensures Count(LitMeshes(list, shading, lights, true, from, n, gl).trace, ProgramFor(shading, l), item, l)
         == (if item == ItemOf(list, from) && Lit(lights, l) then 1 else 0)
          + Count(LitMeshes(list, shading, lights, true, from + 1, n, Settled(gl)).trace, ProgramFor(shading, l), item, l)
  {
    var first := LitMesh(ItemOf(list, from), shading, lights, true, gl);
    var rest := LitMeshes(list, shading, lights, true, from + 1, n, first.gl);
    CountAppend(first.trace, rest.trace, ProgramFor(shading, l), item, l);
    LitMeshCount(ItemOf(list, from), shading, lights, gl, item, l);
  }

  /** Forward shading with the base program bound per mesh, counted for any program, mesh and light. */
  lemma LitMeshesCountAny(list: ItemList, shading: Shading, lights: Lights, n: nat, gl: Gl,
                          program: Program, item: Item, l: LightRef)
    ensures Count(LitMeshes(list, shading, lights, true, 0, n, gl).trace, program, item, l)
         == if program == ProgramFor(shading, l) && 0 <= IndexIn(list, item) < n && Lit(lights, l) then 1 else 0
  {
    if program == ProgramFor(shading, l) {
      LitMeshesCount(list, shading, lights, 0, n, gl, item, l);
    } else {
      CountNone(LitMeshes(list, shading, lights, true, 0, n, gl).trace, program, item, l);
    }
  }

  // ---------------------------------------------------------------- shadow capture

  /** The framebuffer owned by a light: its depth map or depth cubemap. */
  function ShadowTarget(l: LightRef): Framebuffer {
    match l
    case Unlit => DefaultFramebuffer
    case Directional(i) => DirectionalShadowMap(i)
    case Point(i) => PointShadowCube(i)
    case Spot(i) => SpotShadowMap(i)
  }

  /** Directional and spot lights render a 2D depth map; point lights a depth cubemap through a geometry stage. */
  function DepthProgramFor(kind: LightKind): Program {
    if kind == PointKind then DepthCubeProgram else DepthProgram
  }

  /**
    What every draw of shadow capture for lights from..n looks like: an
    object or terrain drawn for one of those lights, into that light's own
    framebuffer with the depth program of its kind, the rest of the GL state
    as the capture found it.
   */
  predicate ShadowDraw(e: Event, kind: LightKind, from: nat, n: nat, gl: Gl) {
    && e.Draw?
    && from <= LightIndexIn(kind, e.light) < n
    && e.gl == gl.(program := DepthProgramFor(kind), framebuffer := ShadowTarget(e.light))
    && (0 <= IndexIn(ObjectList, e.item) || 0 <= IndexIn(TerrainList, e.item))
  }

  /**
    Shadow capture for lights from..n of one kind: for each light, bind its
    own framebuffer and the depth program, draw every object then every
    terrain once, unbind both.
   */
  function ShadowPasses(kind: LightKind, objects: nat, terrains: nat, from: nat, n: nat, gl: Gl): (s: Step)
    requires from <= n
    ensures s.gl == if from < n then gl.(program := NoProgram, framebuffer := DefaultFramebuffer) else gl
    ensures forall j :: 0 <= j < |s.trace| ==> ShadowDraw(s.trace[j], kind, from, n, gl)
    decreases n - from
  {
    if from == n then Step(gl, [])
    else
      var light := LightOf(kind, from);
      var bound := gl.(framebuffer := ShadowTarget(light), program := DepthProgramFor(kind));
      var draws := Each(ObjectList, 0, objects, light, bound) + Each(TerrainList, 0, terrains, light, bound);
      var rest := ShadowPasses(kind, objects, terrains, from + 1, n,
                               bound.(program := NoProgram, framebuffer := DefaultFramebuffer));
      OneLightShadowDraws(kind, objects, terrains, from, n, gl);
      ShadowDrawsAppend(draws, rest.trace, kind, from, n, gl);
      Step(rest.gl, draws + rest.trace)
  }

  lemma OneLightShadowDraws(kind: LightKind, objects: nat, terrains: nat, from: nat, n: nat, gl: Gl)
    requires from < n
    ensures var light := LightOf(kind, from);
      var bound := gl.(framebuffer := ShadowTarget(light), program := DepthProgramFor(kind));
      var t := Each(ObjectList, 0, objects, light, bound) + Each(TerrainList, 0, terrains, light, bound);
      forall j :: 0 <= j < |t| ==> ShadowDraw(t[j], kind, from, n, gl)
  {
    var light := LightOf(kind, from);
    var bound := gl.(framebuffer := ShadowTarget(light), program := DepthProgramFor(kind));
    var os := Each(ObjectList, 0, objects, light, bound);
    var ts := Each(TerrainList, 0, terrains, light, bound);
    assert LightIndexIn(kind, light) == from;
    forall j | 0 <= j < |os + ts|
      ensures ShadowDraw((os + ts)[j], kind, from, n, gl)
    {
      if j < |os| {
        assert (os + ts)[j] == Draw(ObjectMesh(j), light, bound);
      } else {
        assert (os + ts)[j] == Draw(TerrainMesh(j - |os|), light, bound);
      }
    }
  }

  lemma ShadowDrawsAppend(a: seq<Event>, b: seq<Event>, kind: LightKind, from: nat, n: nat, gl: Gl)
    requires from < n
    requires forall j :: 0 <= j < |a| ==> ShadowDraw(a[j], kind, from, n, gl)
    requires forall j :: 0 <= j < |b| ==>
      ShadowDraw(b[j], kind, from + 1, n, gl.(framebuffer := ShadowTarget(LightOf(kind, from)), program := DepthProgramFor(kind)).(program := NoProgram, framebuffer := DefaultFramebuffer))
    ensures forall j :: 0 <= j < |a + b| ==> ShadowDraw((a + b)[j], kind, from, n, gl)
  {
    forall j | 0 <= j < |a + b|
      ensures ShadowDraw((a + b)[j], kind, from, n, gl)
    {
      if j >= |a| {
        assert (a + b)[j] == b[j - |a|];
      }
    }
  }

  lemma {:induction false} ShadowPassesCount(kind: LightKind, objects: nat, terrains: nat, from: nat, n: nat,
                                             gl: Gl, item: Item, l: LightRef)
    requires from <= n
    ensures Count(ShadowPasses(kind, objects, terrains, from, n, gl).trace, DepthProgramFor(kind), item, l)
         == if from <= LightIndexIn(kind, l) < n
               && (0 <= IndexIn(ObjectList, item) < objects || 0 <= IndexIn(TerrainList, item) < terrains)
            then 1 else 0
    decreases n - from
  {
    if from < n {
      var next := gl.(program := NoProgram, framebuffer := DefaultFramebuffer);
      var p := DepthProgramFor(kind);
      ShadowPassesHead(kind, objects, terrains, from, n, gl, item, l);
      ShadowPassesCount(kind, objects, terrains, from + 1, n, next, item, l);
      ShadowCountStep(kind, from, n, objects, terrains, item, l,
                      if l == LightOf(kind, from) && 0 <= IndexIn(ObjectList, item) < objects then 1 else 0,
                      if l == LightOf(kind, from) && 0 <= IndexIn(TerrainList, item) < terrains then 1 else 0,
                      Count(ShadowPasses(kind, objects, terrains, from + 1, n, next).trace, p, item, l));
    }
  }

  /** The first light draws every object and every terrain once; then come the remaining lights. */
  lemma ShadowPassesHead(kind: LightKind, objects: nat, terrains: nat, from: nat, n: nat, gl: Gl, item: Item, l: LightRef)
    requires from < n
    ensures var p := DepthProgramFor(kind);
      Count(ShadowPasses(kind, objects, terrains, from, n, gl).trace, p, item, l)
      == (if l == LightOf(kind, from) && 0 <= IndexIn(ObjectList, item) < objects then 1 else 0)
       + (if l == LightOf(kind, from) && 0 <= IndexIn(TerrainList, item) < terrains then 1 else 0)
       + Count(ShadowPasses(kind, objects, terrains, from + 1, n,
                            gl.(program := NoProgram, framebuffer := DefaultFramebuffer)).trace, p, item, l)
  {
    var light := LightOf(kind, from);
    var bound := gl.(framebuffer := ShadowTarget(light), program := DepthProgramFor(kind));
    var os := Each(ObjectList, 0, objects, light, bound);
    var ts := Each(TerrainList, 0, terrains, light, bound);
    var rest := ShadowPasses(kind, objects, terrains, from + 1, n, bound.(program := NoProgram, framebuffer := DefaultFramebuffer));
    assert bound.(program := NoProgram, framebuffer := DefaultFramebuffer) == gl.(program := NoProgram, framebuffer := DefaultFramebuffer);
    CountAppend3(os, ts, rest.trace, DepthProgramFor(kind), item, l);
    EachCount(ObjectList, 0, objects, light, bound, DepthProgramFor(kind), item, l);
    EachCount(TerrainList, 0, terrains, light, bound, DepthProgramFor(kind), item, l);
  }

  lemma CountAppend3(a: seq<Event>, b: seq<Event>, c: seq<Event>, program: Program, item: Item, light: LightRef)
    ensures Count(a + b + c, program, item, light)
         == Count(a, program, item, light) + Count(b, program, item, light) + Count(c, program, item, light)
  {
    CountAppend(a + b, c, program, item, light);
    CountAppend(a, b, program, item, light);
  }

  /** One light's objects, its terrains, and the remaining lights add up to one draw per light and mesh. */
  lemma ShadowCountStep(kind: LightKind, from: nat, n: nat, objects: nat, terrains: nat, item: Item, l: LightRef,
                        os: nat, ts: nat, rest: nat)
    requires from < n
    requires os == if l == LightOf(kind, from) && 0 <= IndexIn(ObjectList, item) < objects then 1 else 0
    requires ts == if l == LightOf(kind, from) && 0 <= IndexIn(TerrainList, item) < terrains then 1 else 0
    requires rest == if from + 1 <= LightIndexIn(kind, l) < n
                        && (0 <= IndexIn(ObjectList, item) < objects || 0 <= IndexIn(TerrainList, item) < terrains)
                     then 1 else 0
    ensures os + ts + rest
         == if from <= LightIndexIn(kind, l) < n
               && (0 <= IndexIn(ObjectList, item) < objects || 0 <= IndexIn(TerrainList, item) < terrains)
            then 1 else 0
  {
    assert IndexIn(ObjectList, item) < 0 || IndexIn(TerrainList, item) < 0;
  }

  datatype Vec3 = Vec3(x: int, y: int, z: int)

  /** Two axis vectors are perpendicular when they lie on different axes. */
  predicate Perpendicular(a: Vec3, b: Vec3) {
    (a.x == 0 || b.x == 0) && (a.y == 0 || b.y == 0) && (a.z == 0 || b.z == 0)
  }

  /** One of the six vectors +-X, +-Y, +-Z. */
  predicate IsAxis(v: Vec3) {
    || v == Vec3(1, 0, 0) || v == Vec3(-1, 0, 0)
    || v == Vec3(0, 1, 0) || v == Vec3(0, -1, 0)
    || v == Vec3(0, 0, 1) || v == Vec3(0, 0, -1)
  }

  /** A cubemap face a point light's shadow capture looks through: view direction and up vector. */
  datatype CubeFace = CubeFace(direction: Vec3, up: Vec3)

  /**
    Face i of a point light's shadow cubemap (far plane 25, 90 degree field
    of view): the lookAt view direction and up vector, in the order of the
    six shadow matrices.
   */
  function CubeFaceAt(i: nat): (f: CubeFace)
    requires i < 6
    ensures IsAxis(f.direction) && IsAxis(f.up)
    ensures Perpendicular(f.direction, f.up)
  {
    if i == 0 then CubeFace(Vec3(1, 0, 0), Vec3(0, -1, 0))
    else if i == 1 then CubeFace(Vec3(-1, 0, 0), Vec3(0, -1, 0))
    else if i == 2 then CubeFace(Vec3(0, 1, 0), Vec3(0, 0, 1))
    else if i == 3 then CubeFace(Vec3(0, -1, 0), Vec3(0, 0, -1))
    else if i == 4 then CubeFace(Vec3(0, 0, 1), Vec3(0, -1, 0))
    else CubeFace(Vec3(0, 0, -1), Vec3(0, -1, 0))
  }

  /**
    The face that looks along an axis direction. That there always is one
    means the six faces together see the light's whole surroundings.
   */
  function FaceAlong(v: Vec3): (i: nat)
    requires IsAxis(v)
    ensures i < 6 && CubeFaceAt(i).direction == v
  {
    if v.x == 1 then 0
    else if v.x == -1 then 1
    else if v.y == 1 then 2
    else if v.y == -1 then 3
    else if v.z == 1 then 4
    else 5
  }

  /** Each face is the one looking along its own direction. */
  lemma FaceAlongCubeFace(i: nat)
    requires i < 6
    ensures FaceAlong(CubeFaceAt(i).direction) == i
  {
    var j := FaceAlong(CubeFaceAt(i).direction);
    if j < i {
      CubeFacesDistinct(j, i);
    } else if i < j {
      CubeFacesDistinct(i, j);
    }
  }

  /** No two faces look the same way. */
  lemma CubeFacesDistinct(i: nat, j: nat)
    requires i < j < 6
    ensures CubeFaceAt(i).direction != CubeFaceAt(j).direction
  {
  }
}
