/**
  The forward renderer of src/renderer.cpp: one frame is a scene pass into
  the HDR screen framebuffer, a water pass (two extra scene renders per
  water tile), a sprite pass and the screen composite into the window.

  Every pass is a pure function from the GL state to the next GL state and
  the events it issued. The camera the water pass mirrors is threaded
  through and handed back. View matrices come from `viewOf`, which stands
  for camera::calc_view and is otherwise opaque.
 */
module Renderer {
  import opened GlState
  import opened Scene

  /** What a renderer instance keeps between frames: the queues, the GL state and the stored sizes. */
  datatype Renderer = Renderer(
    queues: Queues,
    gl: Gl,
    displayWidth: int, displayHeight: int,
    renderWidth: int, renderHeight: int,
    reflectionWidth: int, reflectionHeight: int,
    refractionWidth: int, refractionHeight: int)

  /**
    The constructor. The render size is display size times render scale,
    a float product that is taken here as an input. Rendering the BRDF
    lookup table binds its program and never unbinds it, so that program is
    still bound when the constructor returns; everything else is at rest.
   */
  function Create(displayWidth: int, displayHeight: int, renderWidth: int, renderHeight: int,
                  reflectionWidth: int, reflectionHeight: int,
                  refractionWidth: int, refractionHeight: int): (r: Renderer)
    ensures IsEmpty(r.queues)
    ensures r.gl.program == BrdfProgram && Rested(r.gl.(program := NoProgram))
    ensures r.reflectionWidth == reflectionWidth && r.reflectionHeight == reflectionHeight
    ensures r.refractionWidth == refractionWidth && r.refractionHeight == refractionHeight
  {
    Renderer(NoRenderables, Initial.(program := BrdfProgram), displayWidth, displayHeight, renderWidth, renderHeight,
             reflectionWidth, reflectionHeight, refractionWidth, refractionHeight)
  }

  /** set_reflection_size: only the stored size is modelled; the framebuffer it rebuilds is GL plumbing. */
  function SetReflectionSize(r: Renderer, width: int, height: int): (r': Renderer)
    ensures r'.reflectionWidth == width && r'.reflectionHeight == height
    ensures r'.(reflectionWidth := r.reflectionWidth, reflectionHeight := r.reflectionHeight) == r
  {
    r.(reflectionWidth := width, reflectionHeight := height)
  }

  /** set_refraction_size: as for the reflection size. */
  function SetRefractionSize(r: Renderer, width: int, height: int): (r': Renderer)
    ensures r'.refractionWidth == width && r'.refractionHeight == height
    ensures r'.(refractionWidth := r.refractionWidth, refractionHeight := r.refractionHeight) == r
  {
    r.(refractionWidth := width, refractionHeight := height)
  }

  /** Submitting a renderable to the renderer: add_object, add_directional_light, ..., add_sprite. */
  function Submit(r: Renderer, x: Renderable): (r': Renderer)
    ensures Queue(r'.queues, KindOf(x)) == Queue(r.queues, KindOf(x)) + [x]
    ensures forall k :: k != KindOf(x) ==> Queue(r'.queues, k) == Queue(r.queues, k)
    ensures r'.(queues := r.queues) == r
  {
    r.(queues := Add(r.queues, x))
  }

  // ---------------------------------------------------------------- render_scene

  const ObjectShading: Shading :=
    Shading(ForwardAmbientProgram, ForwardDirectionalProgram, ForwardPointProgram, ForwardSpotProgram)

  const TerrainShading: Shading :=
    Shading(TerrainAmbientProgram, TerrainDirectionalProgram, TerrainPointProgram, TerrainSpotProgram)

  function SceneLights(q: Queues): Lights {
    Lights(|q.directionalLights|, |q.pointLights|, |q.spotLights|)
  }

  /** A draw a scene render may issue: a depth capture into a light's own shadow map, or a draw into the target. */
  predicate SceneDraw(e: Event, target: Framebuffer) {
    && e.Draw?
    && !e.item.WaterQuad? && !e.item.SpriteQuad? && !e.item.ScreenQuad?
    && (|| e.gl.framebuffer == target
        || (e.gl.framebuffer == ShadowTarget(e.light) && (e.gl.program == DepthProgram || e.gl.program == DepthCubeProgram)))
  }

  /** A depth capture: an object or terrain drawn into a light's own shadow map with a depth program. */
  predicate ShadowCapture(e: Event) {
    && e.Draw?
    && (e.item.ObjectMesh? || e.item.TerrainMesh?)
    && e.gl.framebuffer == ShadowTarget(e.light)
    && (e.gl.program == DepthProgram || e.gl.program == DepthCubeProgram)
  }

  /**
    The three shadow passes: every directional light, then every point
    light, then every spot light captures every object and every terrain.
   */
  function Shadows(q: Queues, gl: Gl): (s: Step)
    requires gl.program == NoProgram
    ensures s.gl.(framebuffer := DefaultFramebuffer) == gl.(framebuffer := DefaultFramebuffer)
    ensures forall j :: 0 <= j < |s.trace| ==> ShadowCapture(s.trace[j])
  {
    var objects, terrains := |q.objects|, |q.terrains|;
    var directional := ShadowPasses(DirectionalKind, objects, terrains, 0, |q.directionalLights|, gl);
    var point := ShadowPasses(PointKind, objects, terrains, 0, |q.pointLights|, directional.gl);
    var spot := ShadowPasses(SpotKind, objects, terrains, 0, |q.spotLights|, point.gl);
    ShadowPassesLeaveGl(DirectionalKind, objects, terrains, |q.directionalLights|, gl);
    ShadowPassesLeaveGl(PointKind, objects, terrains, |q.pointLights|, directional.gl);
    ShadowPassesLeaveGl(SpotKind, objects, terrains, |q.spotLights|, point.gl);
    ShadowDrawsCapture(directional.trace, DirectionalKind, |q.directionalLights|, gl);
    ShadowDrawsCapture(point.trace, PointKind, |q.pointLights|, directional.gl);
    ShadowDrawsCapture(spot.trace, SpotKind, |q.spotLights|, point.gl);
    CapturesAppend(directional.trace, point.trace, spot.trace);
    Step(spot.gl, directional.trace + point.trace + spot.trace)
  }

  /** Shadow capture leaves nothing bound and otherwise the state it found, up to the framebuffer. */
  lemma ShadowPassesLeaveGl(kind: LightKind, objects: nat, terrains: nat, n: nat, gl: Gl)
    requires gl.program == NoProgram
    ensures var r := ShadowPasses(kind, objects, terrains, 0, n, gl).gl;
      r.program == NoProgram && r.(framebuffer := DefaultFramebuffer) == gl.(framebuffer := DefaultFramebuffer)
  {
  }

  lemma ShadowDrawsCapture(t: seq<Event>, kind: LightKind, n: nat, gl: Gl)
    requires forall j :: 0 <= j < |t| ==> ShadowDraw(t[j], kind, 0, n, gl)
    ensures forall j :: 0 <= j < |t| ==> ShadowCapture(t[j])
  {
  }

  lemma CapturesAppend(a: seq<Event>, b: seq<Event>, c: seq<Event>)
    requires forall j :: 0 <= j < |a| ==> ShadowCapture(a[j])
    requires forall j :: 0 <= j < |b| ==> ShadowCapture(b[j])
    requires forall j :: 0 <= j < |c| ==> ShadowCapture(c[j])
    ensures forall j :: 0 <= j < |a + b + c| ==> ShadowCapture((a + b + c)[j])
  {
    forall j | 0 <= j < |a + b + c|
      ensures ShadowCapture((a + b + c)[j])
    {
      if j < |a| {
        assert (a + b + c)[j] == a[j];
      } else if j < |a| + |b| {
        assert (a + b + c)[j] == b[j - |a|];
      } else {
        assert (a + b + c)[j] == c[j - |a| - |b|];
      }
    }
  }

  /**
    Whether the shadow passes over these queues capture `item` for light `l`
    with `program`: a queued light with its kind's depth program, and a
    queued object or terrain.
   */
  predicate Captured(q: Queues, program: Program, item: Item, l: LightRef) {
    && (0 <= IndexIn(ObjectList, item) < |q.objects| || 0 <= IndexIn(TerrainList, item) < |q.terrains|)
    && match l
       case Unlit => false
       case Directional(i) => program == DepthProgram && i < |q.directionalLights|
       case Point(i) => program == DepthCubeProgram && i < |q.pointLights|
       case Spot(i) => program == DepthProgram && i < |q.spotLights|
  }

  /** The shadow passes issue exactly one capture per queued light and queued mesh, and no other draw. */
  lemma ShadowsCount(q: Queues, gl: Gl, program: Program, item: Item, l: LightRef)
    requires gl.program == NoProgram
    ensures Count(Shadows(q, gl).trace, program, item, l) == if Captured(q, program, item, l) then 1 else 0
  {
    var objects, terrains := |q.objects|, |q.terrains|;
    var directional := ShadowPasses(DirectionalKind, objects, terrains, 0, |q.directionalLights|, gl);
    var point := ShadowPasses(PointKind, objects, terrains, 0, |q.pointLights|, directional.gl);
    var spot := ShadowPasses(SpotKind, objects, terrains, 0, |q.spotLights|, point.gl);
    CountAppend3(directional.trace, point.trace, spot.trace, program, item, l);
    ShadowPassesCountAny(DirectionalKind, objects, terrains, |q.directionalLights|, gl, program, item, l);
    ShadowPassesCountAny(PointKind, objects, terrains, |q.pointLights|, directional.gl, program, item, l);
    ShadowPassesCountAny(SpotKind, objects, terrains, |q.spotLights|, point.gl, program, item, l);
    CapturedSum(q, program, item, l,
                Count(directional.trace, program, item, l), Count(point.trace, program, item, l),
                Count(spot.trace, program, item, l));
  }

  /** Whether the shadow passes of one light kind, over n lights, capture `item` for `l` with `program`. */
  predicate CapturedBy(kind: LightKind, n: nat, objects: nat, terrains: nat, program: Program, item: Item, l: LightRef) {
    && program == DepthProgramFor(kind)
    && 0 <= LightIndexIn(kind, l) < n
    && (0 <= IndexIn(ObjectList, item) < objects || 0 <= IndexIn(TerrainList, item) < terrains)
  }

  /** The three kinds' captures add up to the captures of the whole queue. */
  lemma CapturedSum(q: Queues, program: Program, item: Item, l: LightRef, d: nat, p: nat, s: nat)
    requires d == if CapturedBy(DirectionalKind, |q.directionalLights|, |q.objects|, |q.terrains|, program, item, l) then 1 else 0
    requires p == if CapturedBy(PointKind, |q.pointLights|, |q.objects|, |q.terrains|, program, item, l) then 1 else 0
    requires s == if CapturedBy(SpotKind, |q.spotLights|, |q.objects|, |q.terrains|, program, item, l) then 1 else 0
    ensures d + p + s == if Captured(q, program, item, l) then 1 else 0
  {
  }

  /** The shadow passes of one kind, counted for any program, mesh and light. */
  lemma ShadowPassesCountAny(passKind: LightKind, objects: nat, terrains: nat, n: nat, gl: Gl,
                             program: Program, item: Item, l: LightRef)
    ensures Count(ShadowPasses(passKind, objects, terrains, 0, n, gl).trace, program, item, l)
         == if CapturedBy(passKind, n, objects, terrains, program, item, l) then 1 else 0
  {
    if program == DepthProgramFor(passKind) {
      ShadowPassesCount(passKind, objects, terrains, 0, n, gl, item, l);
    } else {
      ShadowPassesOtherProgram(passKind, objects, terrains, n, gl, program, item, l);
    }
  }

  /** The terrain lighting loop as it should be: each terrain binds the terrain ambient program for its own base draw. */
  function TerrainPass(n: nat, lights: Lights, gl: Gl): (s: Step)
    ensures s.gl == if n > 0 then Settled(gl) else gl
    ensures forall j :: 0 <= j < |s.trace| ==>
      && s.trace[j].Draw? && 0 <= IndexIn(TerrainList, s.trace[j].item) < n
      && s.trace[j].gl.program == ProgramFor(TerrainShading, s.trace[j].light)
      && s.trace[j].gl.framebuffer == gl.framebuffer
  {
    LitMeshes(TerrainList, TerrainShading, lights, true, 0, n, gl)
  }

  /**
    The terrain lighting loop as written: the terrain ambient program is
    bound once before the loop but unbound inside it, after each terrain's
    base draw.
   */
  function TerrainPassAsWritten(n: nat, lights: Lights, gl: Gl): (s: Step)
    ensures n > 0 ==> s.gl == Settled(gl)
    ensures n == 0 ==> s == Step(gl.(program := TerrainAmbientProgram), [])
    ensures forall j :: 0 <= j < |s.trace| ==> s.trace[j].Draw? && 0 <= IndexIn(TerrainList, s.trace[j].item) < n
  {
    LitMeshes(TerrainList, TerrainShading, lights, false, 0, n, gl.(program := TerrainAmbientProgram))
  }

  /**
    As written, each terrain gets exactly one base draw, but only the first
    terrain's runs under the terrain ambient program: every later terrain's
    runs with no program bound.
   */
  lemma TerrainPassAsWrittenBaseDraws(n: nat, lights: Lights, gl: Gl, program: Program, item: Item)
    ensures Count(TerrainPassAsWritten(n, lights, gl).trace, program, item, Unlit)
         == if 0 <= IndexIn(TerrainList, item) < n && program == AsWrittenBaseProgram(IndexIn(TerrainList, item)) then 1 else 0
  {
    if n > 0 {
      var g := gl.(program := TerrainAmbientProgram);
      var first := LitMesh(TerrainMesh(0), TerrainShading, lights, false, g);
      var rest := LitMeshes(TerrainList, TerrainShading, lights, false, 1, n, first.gl);
      assert ItemOf(TerrainList, 0) == TerrainMesh(0);
      assert TerrainPassAsWritten(n, lights, gl).trace == first.trace + rest.trace;
      CountAppend(first.trace, rest.trace, program, item, Unlit);
      LitMeshBaseCount(TerrainMesh(0), TerrainShading, lights, false, g, program, item);
      UnboundBaseCount(TerrainList, TerrainShading, lights, 1, n, first.gl, program, item);
    }
  }

  /** The program terrain k's base draw runs under in the loop as written. */
  function AsWrittenBaseProgram(k: int): Program {
    if k == 0 then TerrainAmbientProgram else NoProgram
  }

  /** The corrected terrain loop: every terrain gets one base draw and one draw per light, each with its terrain program. */
  lemma TerrainPassCount(n: nat, lights: Lights, gl: Gl, item: Item, l: LightRef)
    ensures Count(TerrainPass(n, lights, gl).trace, ProgramFor(TerrainShading, l), item, l)
         == if 0 <= IndexIn(TerrainList, item) < n && Lit(lights, l) then 1 else 0
  {
    LitMeshesCount(TerrainList, TerrainShading, lights, 0, n, gl, item, l);
  }

  /**
    With two terrains, the second terrain's base draw is issued with no
    program bound, so it never reaches the terrain ambient program; only the
    first terrain gets its ambient draw.
   */
  lemma TerrainPassAsWrittenSkipsSecondAmbient(lights: Lights, gl: Gl)
    ensures Count(TerrainPassAsWritten(2, lights, gl).trace, TerrainAmbientProgram, TerrainMesh(1), Unlit) == 0
    ensures Count(TerrainPassAsWritten(2, lights, gl).trace, NoProgram, TerrainMesh(1), Unlit) == 1
  {
    var g := gl.(program := TerrainAmbientProgram);
    var first := LitMesh(TerrainMesh(0), TerrainShading, lights, false, g);
    var tail := LitMeshes(TerrainList, TerrainShading, lights, false, 1, 2, first.gl);
    assert ItemOf(TerrainList, 0) == TerrainMesh(0);
    assert TerrainPassAsWritten(2, lights, gl).trace == first.trace + tail.trace;
    SecondTerrainBaseDraw(lights, first.gl);
    LitMeshBaseCount(TerrainMesh(0), TerrainShading, lights, false, g, TerrainAmbientProgram, TerrainMesh(1));
    LitMeshBaseCount(TerrainMesh(0), TerrainShading, lights, false, g, NoProgram, TerrainMesh(1));
    CountAppend(first.trace, tail.trace, TerrainAmbientProgram, TerrainMesh(1), Unlit);
    CountAppend(first.trace, tail.trace, NoProgram, TerrainMesh(1), Unlit);
  }

  /** As written, the last terrain's base draw runs under whatever program the previous terrain left bound. */
  lemma SecondTerrainBaseDraw(lights: Lights, gl: Gl)
    requires gl.program == NoProgram
    ensures Count(LitMeshes(TerrainList, TerrainShading, lights, false, 1, 2, gl).trace, TerrainAmbientProgram, TerrainMesh(1), Unlit) == 0
    ensures Count(LitMeshes(TerrainList, TerrainShading, lights, false, 1, 2, gl).trace, NoProgram, TerrainMesh(1), Unlit) == 1
  {
    var second := LitMesh(TerrainMesh(1), TerrainShading, lights, false, gl);
    assert ItemOf(TerrainList, 1) == TerrainMesh(1);
    assert LitMeshes(TerrainList, TerrainShading, lights, false, 1, 2, gl).trace == second.trace + [];
    assert second.trace + [] == second.trace;
    LitMeshBaseCount(TerrainMesh(1), TerrainShading, lights, false, gl, TerrainAmbientProgram, TerrainMesh(1));
    LitMeshBaseCount(TerrainMesh(1), TerrainShading, lights, false, gl, NoProgram, TerrainMesh(1));
  }

  /** The skybox: its own program, depth func LEQUAL during the draw and LESS after, the view without translation. */
  function SkyboxPass(target: Framebuffer, view: Mat4, environmentBound: bool, gl: Gl): (s: Step)
    ensures |s.trace| == 1 && s.trace[0].Draw?
    ensures s.trace[0].item == SkyboxCube(ZeroTranslation(view), environmentBound) && s.trace[0].light == Unlit
    ensures s.trace[0].gl.depthFunc == LessOrEqual && s.trace[0].gl.program == SkyboxProgram
    ensures s.trace[0].gl.framebuffer == target
    ensures s.gl.depthFunc == Less && s.gl.program == NoProgram && s.gl.framebuffer == target
    ensures s.gl.(depthFunc := gl.depthFunc, program := gl.program, framebuffer := gl.framebuffer) == gl
  {
    var sky := gl.(framebuffer := target, depthFunc := LessOrEqual, program := SkyboxProgram);
    Step(sky.(program := NoProgram, depthFunc := Less), [Draw(SkyboxCube(ZeroTranslation(view), environmentBound), Unlit, sky)])
  }

  /** The debug cube drawn at every point light, with clipping on for the duration. */
  function MarkerPass(points: nat, gl: Gl): (s: Step)
    ensures !gl.clipDistance && gl.program == NoProgram ==> s.gl == gl
    ensures |s.trace| == points
    ensures forall j :: 0 <= j < points ==>
      s.trace[j] == Draw(LightMarker(j), Unlit, gl.(clipDistance := true, program := ColorProgram))
  {
    if points > 0 then Step(gl.(clipDistance := false, program := NoProgram), Each(MarkerList, 0, points, Unlit, gl.(clipDistance := true, program := ColorProgram)))
    else Step(gl, [])
  }

  /**
    Forward lighting into `target` with clipping on: every object, then
    every terrain, each with its base draw and one additive draw per light.
   */
  function ForwardPass(q: Queues, target: Framebuffer, gl: Gl): (s: Step)
    requires gl.program == NoProgram
    ensures s.gl.framebuffer == DefaultFramebuffer && !s.gl.clipDistance && s.gl.program == NoProgram
    ensures s.gl.depthTest == gl.depthTest && (Opaque(gl) ==> Opaque(s.gl))
  {
    var objects := ObjectsLit(q, target, gl);
    var terrains := TerrainsLit(q, objects.gl);
    Step(terrains.gl.(clipDistance := false, framebuffer := DefaultFramebuffer), objects.trace + terrains.trace)
  }

  /** The forward pass's object loop, into `target` with clipping on. */
  function ObjectsLit(q: Queues, target: Framebuffer, gl: Gl): Step {
    LitMeshes(ObjectList, ObjectShading, SceneLights(q), true, 0, |q.objects|, gl.(framebuffer := target, clipDistance := true))
  }

  /** The forward pass's terrain loop: the corrected one; TerrainPassAsWritten is the loop as written. */
  function TerrainsLit(q: Queues, gl: Gl): Step {
    TerrainPass(|q.terrains|, SceneLights(q), gl)
  }

  /** Every forward draw is an object or terrain drawn into the target. */
  lemma ForwardDraws(q: Queues, target: Framebuffer, gl: Gl)
    requires gl.program == NoProgram
    ensures var t := ForwardPass(q, target, gl).trace;
      forall j :: 0 <= j < |t| ==>
        && t[j].Draw? && t[j].gl.framebuffer == target
        && (0 <= IndexIn(ObjectList, t[j].item) || 0 <= IndexIn(TerrainList, t[j].item))
  {
  }

  /** The draws of one scene render, pass by pass. */
  datatype SceneParts = SceneParts(shadows: Step, lit: Step, sky: Step, markers: Step)

  function Parts(q: Queues, target: Framebuffer, eye: Camera, skybox: bool, viewOf: Camera -> Mat4, gl: Gl): SceneParts {
    var shadows := Shadows(q, gl.(program := NoProgram));
    var lit := ForwardPass(q, target, shadows.gl.(framebuffer := DefaultFramebuffer));
    var sky := SkyboxPass(target, viewOf(eye), skybox, lit.gl);
    var markers := MarkerPass(|q.pointLights|, sky.gl);
    SceneParts(shadows, lit, sky, markers)
  }

  /**
    render_scene in the FORWARD lighting mode: uniform setup (leaves no
    program bound), the shadow passes, forward lighting of objects and
    terrains, the skybox, the point light markers.
   */
  function RenderScene(q: Queues, target: Framebuffer, width: int, height: int, eye: Camera,
                       skybox: bool, viewOf: Camera -> Mat4, clip: Plane, gl: Gl): (s: Step)
    requires gl.framebuffer == DefaultFramebuffer && !gl.clipDistance
    ensures |s.trace| > 0 && s.trace[0] == SceneBegin(target, width, height, eye, clip)
    ensures forall j :: 1 <= j < |s.trace| ==> SceneDraw(s.trace[j], target)
    ensures Rested(gl.(program := NoProgram)) ==> Rested(s.gl)
    ensures s.gl.framebuffer == DefaultFramebuffer && !s.gl.clipDistance && s.gl.program == NoProgram
  {
    var p := Parts(q, target, eye, skybox, viewOf, gl);
    var begin := SceneBegin(target, width, height, eye, clip);
    PartsGl(q, target, eye, skybox, viewOf, gl);
    PartsLitDraws(q, target, eye, skybox, viewOf, gl);
    PartsUnlitDraws(q, target, eye, skybox, viewOf, gl);
    SceneTrace(begin, p, target);
    Step(p.markers.gl.(framebuffer := DefaultFramebuffer), [begin] + p.shadows.trace + p.lit.trace + p.sky.trace + p.markers.trace)
  }

  /** The passes of a scene render leave nothing bound and no clipping, and keep a rested state rested. */
  lemma PartsGl(q: Queues, target: Framebuffer, eye: Camera, skybox: bool, viewOf: Camera -> Mat4, gl: Gl)
    requires gl.framebuffer == DefaultFramebuffer && !gl.clipDistance
    ensures var g := Parts(q, target, eye, skybox, viewOf, gl).markers.gl;
      && g.program == NoProgram && !g.clipDistance
      && (Rested(gl.(program := NoProgram)) ==> Rested(g.(framebuffer := DefaultFramebuffer)))
  {
  }

  /** What the shadow and lighting passes of a scene render draw. */
  predicate LitDraws(shadows: seq<Event>, lit: seq<Event>, target: Framebuffer) {
    && (forall j :: 0 <= j < |shadows| ==> ShadowCapture(shadows[j]))
    && (forall j :: 0 <= j < |lit| ==>
         && lit[j].Draw? && lit[j].gl.framebuffer == target
         && (0 <= IndexIn(ObjectList, lit[j].item) || 0 <= IndexIn(TerrainList, lit[j].item)))
  }

  /** What the skybox and marker passes of a scene render draw. */
  predicate UnlitDraws(sky: seq<Event>, markers: seq<Event>, target: Framebuffer) {
    && (forall j :: 0 <= j < |sky| ==> sky[j].Draw? && sky[j].item.SkyboxCube? && sky[j].gl.framebuffer == target)
    && (forall j :: 0 <= j < |markers| ==>
         markers[j].Draw? && markers[j].item.LightMarker? && markers[j].gl.framebuffer == target)
  }

  lemma PartsLitDraws(q: Queues, target: Framebuffer, eye: Camera, skybox: bool, viewOf: Camera -> Mat4, gl: Gl)
    ensures var p := Parts(q, target, eye, skybox, viewOf, gl);
      LitDraws(p.shadows.trace, p.lit.trace, target)
  {
    var p := Parts(q, target, eye, skybox, viewOf, gl);
    ForwardDraws(q, target, p.shadows.gl.(framebuffer := DefaultFramebuffer));
  }

  lemma PartsUnlitDraws(q: Queues, target: Framebuffer, eye: Camera, skybox: bool, viewOf: Camera -> Mat4, gl: Gl)
    ensures var p := Parts(q, target, eye, skybox, viewOf, gl);
      UnlitDraws(p.sky.trace, p.markers.trace, target)
  {
    var p := Parts(q, target, eye, skybox, viewOf, gl);
    UnlitPassDraws(target, viewOf(eye), skybox, p.lit.gl, |q.pointLights|);
  }

  /** The skybox and the markers are drawn into the target. */
  lemma UnlitPassDraws(target: Framebuffer, view: Mat4, environmentBound: bool, gl: Gl, points: nat)
    ensures var sky := SkyboxPass(target, view, environmentBound, gl);
      UnlitDraws(sky.trace, MarkerPass(points, sky.gl).trace, target)
  {
  }

  /** A scene render's draws, counted: its SceneBegin draws nothing, the rest is the sum over the four passes. */
  lemma CountSceneTrace(begin: Event, a: seq<Event>, b: seq<Event>, c: seq<Event>, d: seq<Event>,
                        program: Program, item: Item, l: LightRef)
    requires !begin.Draw?
    ensures Count([begin] + a + b + c + d, program, item, l)
         == Count(a, program, item, l) + Count(b, program, item, l) + Count(c, program, item, l) + Count(d, program, item, l)
  {
    CountAppend([begin] + a + b + c, d, program, item, l);
    CountAppend3([begin] + a, b, c, program, item, l);
    CountCons(begin, a, program, item, l);
  }

  /** Shadow capture of one kind issues no draw with any program but that kind's depth program. */
  lemma ShadowPassesOtherProgram(kind: LightKind, objects: nat, terrains: nat, n: nat, gl: Gl,
                                 program: Program, item: Item, l: LightRef)
    requires program != DepthProgramFor(kind)
    ensures Count(ShadowPasses(kind, objects, terrains, 0, n, gl).trace, program, item, l) == 0
  {
    CountNone(ShadowPasses(kind, objects, terrains, 0, n, gl).trace, program, item, l);
  }

  /** Whether forward lighting over these queues draws `item` lit by `l` with `program`. */
  predicate ForwardLit(q: Queues, program: Program, item: Item, l: LightRef) {
    && Lit(SceneLights(q), l)
    && (|| (program == ProgramFor(ObjectShading, l) && 0 <= IndexIn(ObjectList, item) < |q.objects|)
        || (program == ProgramFor(TerrainShading, l) && 0 <= IndexIn(TerrainList, item) < |q.terrains|))
  }

  /** Forward lighting draws every object, then every terrain, once per light it is lit by, and nothing else. */
  lemma ForwardCount(q: Queues, target: Framebuffer, gl: Gl, program: Program, item: Item, l: LightRef)
    requires gl.program == NoProgram
    ensures Count(ForwardPass(q, target, gl).trace, program, item, l) == if ForwardLit(q, program, item, l) then 1 else 0
  {
    var objects := ObjectsLit(q, target, gl);
    ObjectsLitCount(q, target, gl, program, item, l);
    TerrainsLitCount(q, objects.gl, program, item, l);
    ForwardSum(q, program, item, l, objects.trace, TerrainsLit(q, objects.gl).trace);
  }

  lemma ObjectsLitCount(q: Queues, target: Framebuffer, gl: Gl, program: Program, item: Item, l: LightRef)
    ensures Count(ObjectsLit(q, target, gl).trace, program, item, l)
         == if program == ProgramFor(ObjectShading, l) && 0 <= IndexIn(ObjectList, item) < |q.objects|
               && Lit(SceneLights(q), l) then 1 else 0
  {
    LitMeshesCountAny(ObjectList, ObjectShading, SceneLights(q), |q.objects|, gl.(framebuffer := target, clipDistance := true),
                      program, item, l);
  }

  lemma TerrainsLitCount(q: Queues, gl: Gl, program: Program, item: Item, l: LightRef)
    ensures Count(TerrainsLit(q, gl).trace, program, item, l)
         == if program == ProgramFor(TerrainShading, l) && 0 <= IndexIn(TerrainList, item) < |q.terrains|
               && Lit(SceneLights(q), l) then 1 else 0
  {
    LitMeshesCountAny(TerrainList, TerrainShading, SceneLights(q), |q.terrains|, gl, program, item, l);
  }

  /** Objects and terrains never share a program, so at most one of their draws counts. */
  lemma ForwardSum(q: Queues, program: Program, item: Item, l: LightRef, objects: seq<Event>, terrains: seq<Event>)
    requires Count(objects, program, item, l)
          == if program == ProgramFor(ObjectShading, l) && 0 <= IndexIn(ObjectList, item) < |q.objects|
                && Lit(SceneLights(q), l) then 1 else 0
    requires Count(terrains, program, item, l)
          == if program == ProgramFor(TerrainShading, l) && 0 <= IndexIn(TerrainList, item) < |q.terrains|
                && Lit(SceneLights(q), l) then 1 else 0
    ensures Count(objects + terrains, program, item, l) == if ForwardLit(q, program, item, l) then 1 else 0
  {
    CountAppend(objects, terrains, program, item, l);
    assert ProgramFor(ObjectShading, l) != ProgramFor(TerrainShading, l);
  }

  /** The skybox pass draws the cube once, with the view stripped of its translation, and nothing else. */
  lemma SkyboxCount(target: Framebuffer, view: Mat4, environmentBound: bool, gl: Gl, program: Program, item: Item, l: LightRef)
    ensures Count(SkyboxPass(target, view, environmentBound, gl).trace, program, item, l)
         == if program == SkyboxProgram && item == SkyboxCube(ZeroTranslation(view), environmentBound) && l == Unlit then 1 else 0
  {
    var t := SkyboxPass(target, view, environmentBound, gl).trace;
    assert t[1..] == [];
  }

  /** The marker pass draws one cube per point light with the color program, and nothing else. */
  lemma MarkerCount(points: nat, gl: Gl, program: Program, item: Item, l: LightRef)
    ensures Count(MarkerPass(points, gl).trace, program, item, l)
         == if program == ColorProgram && l == Unlit && 0 <= IndexIn(MarkerList, item) < points then 1 else 0
  {
    if points > 0 {
      EachCount(MarkerList, 0, points, Unlit, gl.(clipDistance := true, program := ColorProgram), program, item, l);
    } else {
      assert MarkerPass(points, gl).trace == [];
    }
  }

  /**
    Every draw of a scene render, counted: the shadow captures, the forward
    lighting, one skybox draw and one marker per point light.
   */
  lemma SceneCount(q: Queues, target: Framebuffer, width: int, height: int, eye: Camera,
                   skybox: bool, viewOf: Camera -> Mat4, clip: Plane, gl: Gl, program: Program, item: Item, l: LightRef)
    requires gl.framebuffer == DefaultFramebuffer && !gl.clipDistance
    ensures Count(RenderScene(q, target, width, height, eye, skybox, viewOf, clip, gl).trace, program, item, l)
         == (if Captured(q, program, item, l) then 1 else 0)
          + (if ForwardLit(q, program, item, l) then 1 else 0)
          + (if program == SkyboxProgram && item == SkyboxCube(ZeroTranslation(viewOf(eye)), skybox) && l == Unlit then 1 else 0)
          + (if program == ColorProgram && l == Unlit && 0 <= IndexIn(MarkerList, item) < |q.pointLights| then 1 else 0)
  {
    var p := Parts(q, target, eye, skybox, viewOf, gl);
    CountSceneTrace(SceneBegin(target, width, height, eye, clip), p.shadows.trace, p.lit.trace, p.sky.trace, p.markers.trace,
                    program, item, l);
    ShadowsCount(q, gl.(program := NoProgram), program, item, l);
    ForwardCount(q, target, p.shadows.gl.(framebuffer := DefaultFramebuffer), program, item, l);
    SkyboxCount(target, viewOf(eye), skybox, p.lit.gl, program, item, l);
    MarkerCount(|q.pointLights|, p.sky.gl, program, item, l);
  }

  /**
    In a scene render every object gets exactly one ambient draw and one
    additive draw per directional, point and spot light, and no other draw
    uses the object programs.
   */
  lemma SceneObjectDraws(q: Queues, target: Framebuffer, width: int, height: int, eye: Camera,
                         skybox: bool, viewOf: Camera -> Mat4, clip: Plane, gl: Gl, item: Item, l: LightRef)
    requires gl.framebuffer == DefaultFramebuffer && !gl.clipDistance
    ensures Count(RenderScene(q, target, width, height, eye, skybox, viewOf, clip, gl).trace,
                  ProgramFor(ObjectShading, l), item, l)
         == if 0 <= IndexIn(ObjectList, item) < |q.objects| && Lit(SceneLights(q), l) then 1 else 0
  {
    SceneCount(q, target, width, height, eye, skybox, viewOf, clip, gl, ProgramFor(ObjectShading, l), item, l);
    ShadingTerms(q, ObjectShading, item, l);
  }

  /** A forward program is never a depth, skybox or color program, and objects and terrains never share one. */
  lemma ShadingTerms(q: Queues, shading: Shading, item: Item, l: LightRef)
    requires shading == ObjectShading || shading == TerrainShading
    ensures !Captured(q, ProgramFor(shading, l), item, l)
    ensures ProgramFor(shading, l) != SkyboxProgram && ProgramFor(shading, l) != ColorProgram
    ensures ForwardLit(q, ProgramFor(shading, l), item, l)
        <==> Lit(SceneLights(q), l)
             && if shading == ObjectShading then 0 <= IndexIn(ObjectList, item) < |q.objects|
                else 0 <= IndexIn(TerrainList, item) < |q.terrains|
  {
  }

  /** Likewise every terrain, with the terrain programs. */
  lemma SceneTerrainDraws(q: Queues, target: Framebuffer, width: int, height: int, eye: Camera,
                          skybox: bool, viewOf: Camera -> Mat4, clip: Plane, gl: Gl, item: Item, l: LightRef)
    requires gl.framebuffer == DefaultFramebuffer && !gl.clipDistance
    ensures Count(RenderScene(q, target, width, height, eye, skybox, viewOf, clip, gl).trace,
                  ProgramFor(TerrainShading, l), item, l)
         == if 0 <= IndexIn(TerrainList, item) < |q.terrains| && Lit(SceneLights(q), l) then 1 else 0
  {
    SceneCount(q, target, width, height, eye, skybox, viewOf, clip, gl, ProgramFor(TerrainShading, l), item, l);
    ShadingTerms(q, TerrainShading, item, l);
  }

  /** How many lights of a kind are queued. */
  function LightsQueued(q: Queues, kind: LightKind): nat {
    match kind
    case DirectionalKind => |q.directionalLights|
    case PointKind => |q.pointLights|
    case SpotKind => |q.spotLights|
  }

  /** In a scene render every light captures every object and terrain exactly once into its own shadow map. */
  lemma SceneShadowDraws(q: Queues, target: Framebuffer, width: int, height: int, eye: Camera,
                         skybox: bool, viewOf: Camera -> Mat4, clip: Plane, gl: Gl, kind: LightKind, i: nat, item: Item)
    requires gl.framebuffer == DefaultFramebuffer && !gl.clipDistance
    ensures Count(RenderScene(q, target, width, height, eye, skybox, viewOf, clip, gl).trace,
                  DepthProgramFor(kind), item, LightOf(kind, i))
         == if i < LightsQueued(q, kind)
               && (0 <= IndexIn(ObjectList, item) < |q.objects| || 0 <= IndexIn(TerrainList, item) < |q.terrains|)
            then 1 else 0
  {
    SceneCount(q, target, width, height, eye, skybox, viewOf, clip, gl, DepthProgramFor(kind), item, LightOf(kind, i));
    DepthTerms(q, kind, i, item);
  }

  /** A depth program is used by the shadow capture of its own kind's queued lights only. */
  lemma DepthTerms(q: Queues, kind: LightKind, i: nat, item: Item)
    ensures Captured(q, DepthProgramFor(kind), item, LightOf(kind, i))
        <==> i < LightsQueued(q, kind)
             && (0 <= IndexIn(ObjectList, item) < |q.objects| || 0 <= IndexIn(TerrainList, item) < |q.terrains|)
    ensures !ForwardLit(q, DepthProgramFor(kind), item, LightOf(kind, i))
    ensures DepthProgramFor(kind) != SkyboxProgram && DepthProgramFor(kind) != ColorProgram
  {
  }

  /** The skybox is drawn exactly once, with the camera view stripped of its translation. */
  lemma SceneSkyboxDraw(q: Queues, target: Framebuffer, width: int, height: int, eye: Camera,
                        skybox: bool, viewOf: Camera -> Mat4, clip: Plane, gl: Gl)
    requires gl.framebuffer == DefaultFramebuffer && !gl.clipDistance
    ensures Count(RenderScene(q, target, width, height, eye, skybox, viewOf, clip, gl).trace,
                  SkyboxProgram, SkyboxCube(ZeroTranslation(viewOf(eye)), skybox), Unlit) == 1
  {
    SceneCount(q, target, width, height, eye, skybox, viewOf, clip, gl,
               SkyboxProgram, SkyboxCube(ZeroTranslation(viewOf(eye)), skybox), Unlit);
    UnlitTerms(q, SkyboxProgram, SkyboxCube(ZeroTranslation(viewOf(eye)), skybox));
  }

  /** One marker cube per point light, drawn with the color program. */
  lemma SceneMarkerDraws(q: Queues, target: Framebuffer, width: int, height: int, eye: Camera,
                         skybox: bool, viewOf: Camera -> Mat4, clip: Plane, gl: Gl, item: Item)
    requires gl.framebuffer == DefaultFramebuffer && !gl.clipDistance
    ensures Count(RenderScene(q, target, width, height, eye, skybox, viewOf, clip, gl).trace, ColorProgram, item, Unlit)
         == if 0 <= IndexIn(MarkerList, item) < |q.pointLights| then 1 else 0
  {
    SceneCount(q, target, width, height, eye, skybox, viewOf, clip, gl, ColorProgram, item, Unlit);
    UnlitTerms(q, ColorProgram, item);
  }

  /** No shadow capture and no forward draw is unlit under the color or skybox program. */
  lemma UnlitTerms(q: Queues, program: Program, item: Item)
    requires program == ColorProgram || program == SkyboxProgram
    ensures !Captured(q, program, item, Unlit) && !ForwardLit(q, program, item, Unlit)
  {
  }

  lemma SceneTrace(begin: Event, p: SceneParts, target: Framebuffer)
    requires LitDraws(p.shadows.trace, p.lit.trace, target) && UnlitDraws(p.sky.trace, p.markers.trace, target)
    ensures var t := [begin] + p.shadows.trace + p.lit.trace + p.sky.trace + p.markers.trace;
      forall j :: 1 <= j < |t| ==> SceneDraw(t[j], target)
  {
    var shadows, lit, sky, markers := p.shadows.trace, p.lit.trace, p.sky.trace, p.markers.trace;
    var u := shadows + lit + sky + markers;
    var t := [begin] + u;
    assert t == [begin] + shadows + lit + sky + markers;
    forall j | 1 <= j < |t|
      ensures SceneDraw(t[j], target)
    {
      var k := j - 1;
      assert t[j] == u[k];
      if k < |shadows| {
        assert u[k] == shadows[k];
      } else if k < |shadows| + |lit| {
        assert u[k] == lit[k - |shadows|];
      } else if k < |shadows| + |lit| + |sky| {
        assert u[k] == sky[k - |shadows| - |lit|];
      } else {
        assert u[k] == markers[k - |shadows| - |lit| - |sky|];
      }
    }
  }

  // ---------------------------------------------------------------- render_waters

  /** The camera mirrored in the water plane at height h: y reflected to the other side, pitch and roll negated. */
  function Mirror(eye: Camera, h: real): (m: Camera)
    ensures m.y - h == h - eye.y
    ensures m.pitch == -eye.pitch && m.roll == -eye.roll
    ensures m.x == eye.x && m.z == eye.z && m.yaw == eye.yaw
    ensures eye.y > h <==> m.y < h
  {
    eye.(y := eye.y - 2.0 * (eye.y - h), pitch := -eye.pitch, roll := -eye.roll)
  }

  lemma MirrorIsInvolution(eye: Camera, h: real)
    ensures Mirror(Mirror(eye, h), h) == eye
  {
  }

  /** Writing back the saved height, pitch and roll. */
  function Restore(c: Camera, saved: Camera): Camera {
    c.(y := saved.y, pitch := saved.pitch, roll := saved.roll)
  }

  /** The saved fields are the only ones the mirror touches, so restoring them gives back the camera exactly. */
  lemma RestoreUndoesMirror(eye: Camera, h: real)
    ensures Restore(Mirror(eye, h), eye) == eye
  {
  }

  /** The reflection render keeps what lies above the water. */
  function ReflectionPlane(h: real): (p: Plane)
    ensures forall y :: KeepsHeight(p, y) <==> y >= h
  {
    Plane(0.0, 1.0, 0.0, -h)
  }

  /**
    The refraction render keeps what lies below the water, or above it when
    the camera is under the water: always the far side from the camera.
   */
  function RefractionPlane(eye: Camera, h: real): (p: Plane)
    ensures forall y :: KeepsHeight(p, y) <==> if eye.y < h then y >= h else y <= h
  {
    if eye.y < h then Plane(0.0, 1.0, 0.0, -h) else Plane(0.0, -1.0, 0.0, h)
  }

  /** A reflection is rendered only when the camera is above the water. */
  predicate Reflects(eye: Camera, w: Water) {
    eye.y > w.y
  }

  /** With the camera exactly at the surface there is no reflection and the refraction plane is not flipped. */
  lemma AtSurface(eye: Camera, w: Water)
    requires eye.y == w.y
    ensures !Reflects(eye, w)
    ensures RefractionPlane(eye, w.y) == Plane(0.0, -1.0, 0.0, w.y)
  {
  }

  /** The outcome of the water pass: the camera handed back, the GL state and the events. */
  datatype WaterStep = WaterStep(camera: Camera, gl: Gl, trace: seq<Event>)

  /** What a scene render issues: its SceneBegin, or one of its draws. */
  predicate SceneEvent(e: Event) {
    || e.SceneBegin?
    || (e.Draw? && !e.item.WaterQuad? && !e.item.SpriteQuad? && !e.item.ScreenQuad?)
  }

  /** The scene renders one water tile asks for, in order. */
  function WaterScenes(r: Renderer, eye: Camera, w: Water): seq<Event> {
    (if Reflects(eye, w)
     then [SceneBegin(ReflectionTarget, r.reflectionWidth, r.reflectionHeight, Mirror(eye, w.y), ReflectionPlane(w.y))]
     else [])
    + [SceneBegin(RefractionTarget, r.refractionWidth, r.refractionHeight, eye, RefractionPlane(eye, w.y))]
  }

  /** A scene render's trace holds exactly one scene render, its own. */
  lemma OneScene(t: seq<Event>, target: Framebuffer)
    requires |t| > 0 && t[0].SceneBegin?
    requires forall j :: 1 <= j < |t| ==> SceneDraw(t[j], target)
    ensures Scenes(t) == [t[0]]
    ensures forall j :: 0 <= j < |t| ==> SceneEvent(t[j])
  {
    NoScenes(t[1..]);
  }

  /**
    One water tile: the reflection render from the mirrored camera when the
    camera is above the water, the refraction render, then the water quad,
    alpha-blended with the reflection texture bound only when a reflection
    was rendered. The quad reads the first directional light.
   */
  function RenderWater(r: Renderer, j: nat, eye: Camera, skybox: bool, viewOf: Camera -> Mat4,
                       target: Framebuffer, gl: Gl): (s: WaterStep)
    requires j < |r.queues.waters| && |r.queues.directionalLights| > 0
    requires gl.framebuffer == DefaultFramebuffer && !gl.clipDistance
    ensures s.camera == eye
    ensures Scenes(s.trace) == WaterScenes(r, eye, r.queues.waters[j])
    ensures |s.trace| > 0 && s.trace[|s.trace| - 1].Draw?
    ensures var quad := s.trace[|s.trace| - 1];
      && quad.item == WaterQuad(j, Reflects(eye, r.queues.waters[j])) && quad.light == Directional(0)
      && quad.gl.program == WaterProgram && quad.gl.framebuffer == target
      && (Reflects(eye, r.queues.waters[j]) ==> quad.gl.blend && quad.gl.blendFunc == AlphaBlend)
      && (Rested(gl) ==> quad.gl.blend == Reflects(eye, r.queues.waters[j]))
    ensures forall k :: 0 <= k < |s.trace| - 1 ==> SceneEvent(s.trace[k])
    ensures s.gl.framebuffer == DefaultFramebuffer && !s.gl.clipDistance && s.gl.program == NoProgram && !s.gl.blend
    ensures Rested(gl) ==> Rested(s.gl)
  {
    var w := r.queues.waters[j];
    var reflect := eye.y > w.y;
    var mirrored := Mirror(eye, w.y);
    var reflection :=
      if reflect
      then RenderScene(r.queues, ReflectionTarget, r.reflectionWidth, r.reflectionHeight, mirrored, skybox, viewOf,
                       ReflectionPlane(w.y), gl)
      else Step(gl, []);
    var camera := if reflect then Restore(mirrored, eye) else eye;
    var refraction := RenderScene(r.queues, RefractionTarget, r.refractionWidth, r.refractionHeight, camera, skybox, viewOf,
                                  RefractionPlane(camera, w.y), reflection.gl);
    var quad := refraction.gl.(framebuffer := target, program := WaterProgram,
                               blend := reflect || refraction.gl.blend,
                               blendFunc := if reflect then AlphaBlend else refraction.gl.blendFunc);
    var draw := [Draw(WaterQuad(j, reflect), Directional(0), quad)];
    WaterTrace(reflection.trace, ReflectionTarget, refraction.trace, RefractionTarget, draw);
    WaterStep(camera, quad.(program := NoProgram, blend := false, framebuffer := DefaultFramebuffer),
              reflection.trace + refraction.trace + draw)
  }

  lemma WaterTrace(reflection: seq<Event>, reflectionTarget: Framebuffer,
                   refraction: seq<Event>, refractionTarget: Framebuffer, draw: seq<Event>)
    requires |reflection| > 0 ==> reflection[0].SceneBegin?
    requires forall j :: 1 <= j < |reflection| ==> SceneDraw(reflection[j], reflectionTarget)
    requires |refraction| > 0 && refraction[0].SceneBegin?
    requires forall j :: 1 <= j < |refraction| ==> SceneDraw(refraction[j], refractionTarget)
    requires |draw| == 1 && draw[0].Draw?
    ensures Scenes(reflection + refraction + draw) == (if |reflection| > 0 then [reflection[0]] else []) + [refraction[0]]
    ensures forall k :: 0 <= k < |reflection + refraction| ==> SceneEvent((reflection + refraction + draw)[k])
  {
    var t := reflection + refraction + draw;
    if |reflection| > 0 {
      OneScene(reflection, reflectionTarget);
    }
    OneScene(refraction, refractionTarget);
    NoScenes(draw);
    ScenesAppend(reflection + refraction, draw);
    ScenesAppend(reflection, refraction);
    forall k | 0 <= k < |reflection + refraction|
      ensures SceneEvent(t[k])
    {
      if k < |reflection| {
        assert t[k] == reflection[k];
      } else {
        assert t[k] == refraction[k - |reflection|];
      }
    }
  }

  /**
    The water pass over tiles from..|waters|, in queue order; every tile hands
    the camera back unchanged. Per tile it renders the reflection (camera above
    the water only) and the refraction, and draws exactly one quad, recording
    whether that tile had a reflection.
   */
  function RenderWaters(r: Renderer, from: nat, eye: Camera, skybox: bool, viewOf: Camera -> Mat4,
                        target: Framebuffer, gl: Gl): (s: WaterStep)
    requires from <= |r.queues.waters|
    requires from < |r.queues.waters| ==> |r.queues.directionalLights| > 0
    requires gl.framebuffer == DefaultFramebuffer && !gl.clipDistance
    ensures s.camera == eye
    ensures forall k :: 0 <= k < |s.trace| ==> WaterPassEvent(s.trace[k], r.queues.waters, from, eye)
    ensures from < |r.queues.waters| ==>
      s.gl.framebuffer == DefaultFramebuffer && !s.gl.clipDistance && s.gl.program == NoProgram && !s.gl.blend
    ensures from == |r.queues.waters| ==> s.gl == gl
    ensures Rested(gl) ==> Rested(s.gl)
    ensures Scenes(s.trace) == AllWaterScenes(r, from, eye)
    ensures WaterQuads(s.trace) == AllWaterQuads(r.queues.waters, from, eye)
    decreases |r.queues.waters| - from
  {
    if from == |r.queues.waters| then WaterStep(eye, gl, [])
    else
      var first := RenderWater(r, from, eye, skybox, viewOf, target, gl);
      var rest := RenderWaters(r, from + 1, first.camera, skybox, viewOf, target, first.gl);
      TileThenRest(first.trace, rest.trace, r.queues.waters, from, eye);
      ScenesAppend(first.trace, rest.trace);
      WaterStep(rest.camera, rest.gl, first.trace + rest.trace)
  }

  /** An event of the water pass over tiles from.. of `waters`: a scene render's event, or the quad of one of those tiles. */
  predicate WaterPassEvent(e: Event, waters: seq<Water>, from: nat, eye: Camera) {
    || SceneEvent(e)
    || (&& e.Draw? && e.item.WaterQuad?
        && from <= e.item.k < |waters| && e.item.reflectionBound == Reflects(eye, waters[e.item.k]))
  }

  /** One tile's events followed by the later tiles' events are the water pass's events from that tile on. */
  lemma TileThenRest(first: seq<Event>, rest: seq<Event>, waters: seq<Water>, from: nat, eye: Camera)
    requires from < |waters|
    requires |first| > 0 && first[|first| - 1].Draw? && first[|first| - 1].item == WaterQuad(from, Reflects(eye, waters[from]))
    requires forall k :: 0 <= k < |first| - 1 ==> SceneEvent(first[k])
    requires forall k :: 0 <= k < |rest| ==> WaterPassEvent(rest[k], waters, from + 1, eye)
    requires WaterQuads(rest) == AllWaterQuads(waters, from + 1, eye)
    ensures forall k :: 0 <= k < |first + rest| ==> WaterPassEvent((first + rest)[k], waters, from, eye)
    ensures WaterQuads(first + rest) == AllWaterQuads(waters, from, eye)
  {
    TileEvents(first, waters, from, eye);
    WaterEventsAppend(first, rest, waters, from, eye);
    WaterQuadsAppend(first, rest);
    QuadLast(first);
  }

  lemma TileEvents(t: seq<Event>, waters: seq<Water>, j: nat, eye: Camera)
    requires j < |waters|
    requires |t| > 0 && t[|t| - 1].Draw? && t[|t| - 1].item == WaterQuad(j, Reflects(eye, waters[j]))
    requires forall k :: 0 <= k < |t| - 1 ==> SceneEvent(t[k])
    ensures forall k :: 0 <= k < |t| ==> WaterPassEvent(t[k], waters, j, eye)
  {
  }

  lemma WaterEventsAppend(a: seq<Event>, b: seq<Event>, waters: seq<Water>, from: nat, eye: Camera)
    requires forall k :: 0 <= k < |a| ==> WaterPassEvent(a[k], waters, from, eye)
    requires forall k :: 0 <= k < |b| ==> WaterPassEvent(b[k], waters, from + 1, eye)
    ensures forall k :: 0 <= k < |a + b| ==> WaterPassEvent((a + b)[k], waters, from, eye)
  {
    forall k | 0 <= k < |a + b|
      ensures WaterPassEvent((a + b)[k], waters, from, eye)
    {
      if k >= |a| {
        assert (a + b)[k] == b[k - |a|];
      }
    }
  }

  /** The scene renders the tiles from..|waters| ask for, in order. */
  function AllWaterScenes(r: Renderer, from: nat, eye: Camera): seq<Event>
    requires from <= |r.queues.waters|
    decreases |r.queues.waters| - from
  {
    if from == |r.queues.waters| then []
    else WaterScenes(r, eye, r.queues.waters[from]) + AllWaterScenes(r, from + 1, eye)
  }

  /** The water quads a trace draws, in order. */
  function WaterQuads(t: seq<Event>): seq<Item>
    decreases |t|
  {
    if |t| == 0 then [] else (if t[0].Draw? && t[0].item.WaterQuad? then [t[0].item] else []) + WaterQuads(t[1..])
  }

  lemma {:induction false} WaterQuadsAppend(a: seq<Event>, b: seq<Event>)
    ensures WaterQuads(a + b) == WaterQuads(a) + WaterQuads(b)
    decreases |a|
  {
    if |a| == 0 {
      assert a + b == b;
    } else {
      var ab := a + b;
      assert ab[0] == a[0];
      assert ab[1..] == a[1..] + b;
      WaterQuadsAppend(a[1..], b);
      assert WaterQuads(ab) == (if a[0].Draw? && a[0].item.WaterQuad? then [a[0].item] else []) + WaterQuads(a[1..] + b);
    }
  }

  /** A trace without water quads draws none. */
  lemma {:induction false} NoWaterQuads(t: seq<Event>)
    requires forall k :: 0 <= k < |t| ==> QuadRank(t[k]) != 1
    ensures WaterQuads(t) == []
    decreases |t|
  {
    if |t| > 0 {
      assert QuadRank(t[0]) != 1;
      NoWaterQuads(t[1..]);
    }
  }

  /** One tile draws one water quad, its own. */
  lemma TileQuads(r: Renderer, j: nat, eye: Camera, skybox: bool, viewOf: Camera -> Mat4, target: Framebuffer, gl: Gl)
    requires j < |r.queues.waters| && |r.queues.directionalLights| > 0
    requires gl.framebuffer == DefaultFramebuffer && !gl.clipDistance
    ensures WaterQuads(RenderWater(r, j, eye, skybox, viewOf, target, gl).trace)
         == [WaterQuad(j, Reflects(eye, r.queues.waters[j]))]
  {
    QuadLast(RenderWater(r, j, eye, skybox, viewOf, target, gl).trace);
  }

  /** A trace of scene events closed by one water quad draws that quad only. */
  lemma QuadLast(t: seq<Event>)
    requires |t| > 0 && t[|t| - 1].Draw? && t[|t| - 1].item.WaterQuad?
    requires forall k :: 0 <= k < |t| - 1 ==> SceneEvent(t[k])
    ensures WaterQuads(t) == [t[|t| - 1].item]
  {
    var scenes, quad := t[..|t| - 1], t[|t| - 1..];
    assert t == scenes + quad;
    NoWaterQuads(scenes);
    WaterQuadsAppend(scenes, quad);
    assert WaterQuads(quad) == [quad[0].item] + WaterQuads(quad[1..]);
  }

  /** One quad per tile from..|waters|, in queue order, recording whether that tile had a reflection. */
  function AllWaterQuads(waters: seq<Water>, from: nat, eye: Camera): (quads: seq<Item>)
    requires from <= |waters|
    ensures |quads| == |waters| - from
    ensures forall k :: 0 <= k < |quads| ==> quads[k] == WaterQuad(from + k, Reflects(eye, waters[from + k]))
    decreases |waters| - from
  {
    if from == |waters| then []
    else [WaterQuad(from, Reflects(eye, waters[from]))] + AllWaterQuads(waters, from + 1, eye)
  }

  // ---------------------------------------------------------------- render_sprites, render_screen

  /** Every sprite quad into `target` with the sprite program, in queue order. */
  function RenderSprites(n: nat, target: Framebuffer, gl: Gl): (s: Step)
    ensures |s.trace| == n
    ensures forall j :: 0 <= j < n ==>
      && s.trace[j].Draw? && s.trace[j].item == SpriteQuad(j) && s.trace[j].light == Unlit
      && s.trace[j].gl.program == SpriteProgram && s.trace[j].gl.framebuffer == target
      && s.trace[j].gl.(program := gl.program, framebuffer := gl.framebuffer) == gl
    ensures s.gl == gl.(program := NoProgram, framebuffer := DefaultFramebuffer)
    ensures Rested(gl) ==> s.gl == gl
  {
    var bound := gl.(framebuffer := target, program := SpriteProgram);
    Step(bound.(program := NoProgram, framebuffer := DefaultFramebuffer), Each(SpriteList, 0, n, Unlit, bound))
  }

  lemma SpritesCount(n: nat, target: Framebuffer, gl: Gl, item: Item)
    ensures Count(RenderSprites(n, target, gl).trace, SpriteProgram, item, Unlit)
         == if 0 <= IndexIn(SpriteList, item) < n then 1 else 0
  {
    EachCount(SpriteList, 0, n, Unlit, gl.(framebuffer := target, program := SpriteProgram), SpriteProgram, item, Unlit);
  }

  /** The screen composite: one quad into `target` with the depth test off; the depth test is back on afterwards. */
  function RenderScreen(target: Framebuffer, gl: Gl): (s: Step)
    ensures |s.trace| == 1 && s.trace[0].Draw? && s.trace[0].item == ScreenQuad && s.trace[0].light == Unlit
    ensures !s.trace[0].gl.depthTest && s.trace[0].gl.program == ScreenProgram && s.trace[0].gl.framebuffer == target
    ensures s.gl == gl.(depthTest := true, framebuffer := DefaultFramebuffer, program := NoProgram)
    ensures Rested(gl) ==> s.gl == gl
  {
    var bound := gl.(framebuffer := target, depthTest := false, program := ScreenProgram);
    Step(bound.(program := NoProgram, depthTest := true, framebuffer := DefaultFramebuffer), [Draw(ScreenQuad, Unlit, bound)])
  }

  /** The composite binds everything it draws with: two states that differ only in the framebuffer, program and depth test give the same draw and leave the same state. */
  lemma ScreenIgnoresBindings(target: Framebuffer, gl: Gl, gl': Gl)
    requires gl'.(framebuffer := gl.framebuffer, program := gl.program, depthTest := gl.depthTest) == gl
    ensures RenderScreen(target, gl) == RenderScreen(target, gl')
  {
  }

  // ---------------------------------------------------------------- flush

  /** A frame's outcome: the renderer afterwards, the camera handed back and the events. */
  datatype Frame = Frame(renderer: Renderer, camera: Camera, trace: seq<Event>)

  /** The main scene, rendered from the eye into the screen framebuffer with nothing clipped. */
  function MainScene(r: Renderer, eye: Camera, skybox: bool, viewOf: Camera -> Mat4): (s: Step)
    requires r.gl.framebuffer == DefaultFramebuffer && !r.gl.clipDistance
    ensures |s.trace| > 0 && s.trace[0] == SceneBegin(ScreenTarget, r.renderWidth, r.renderHeight, eye, ZeroPlane)
    ensures forall k :: 0 <= k < |s.trace| ==> SceneEvent(s.trace[k])
    ensures s.gl.framebuffer == DefaultFramebuffer && !s.gl.clipDistance
    ensures Rested(r.gl.(program := NoProgram)) ==> Rested(s.gl)
  {
    var scene := RenderScene(r.queues, ScreenTarget, r.renderWidth, r.renderHeight, eye, skybox, viewOf, ZeroPlane, r.gl);
    OneScene(scene.trace, ScreenTarget);
    scene
  }

  /** The water pass when there are waters; nothing otherwise. */
  function WaterPhase(r: Renderer, eye: Camera, skybox: bool, viewOf: Camera -> Mat4, gl: Gl): (s: WaterStep)
    requires |r.queues.waters| > 0 ==> |r.queues.directionalLights| > 0
    requires gl.framebuffer == DefaultFramebuffer && !gl.clipDistance
    ensures s.camera == eye
    ensures |r.queues.waters| == 0 ==> s == WaterStep(eye, gl, [])
    ensures forall k :: 0 <= k < |s.trace| ==> WaterPassEvent(s.trace[k], r.queues.waters, 0, eye)
    ensures WaterQuads(s.trace) == AllWaterQuads(r.queues.waters, 0, eye)
    ensures s.gl.framebuffer == DefaultFramebuffer && !s.gl.clipDistance
    ensures Rested(gl) ==> Rested(s.gl)
  {
    if |r.queues.waters| > 0 then RenderWaters(r, 0, eye, skybox, viewOf, ScreenTarget, gl)
    else WaterStep(eye, gl, [])
  }

  /** The sprite pass when there are sprites; nothing otherwise. */
  function SpritePhase(n: nat, gl: Gl): (s: Step)
    ensures n == 0 ==> s == Step(gl, [])
    ensures forall k :: 0 <= k < |s.trace| ==> s.trace[k].Draw? && s.trace[k].item.SpriteQuad? && s.trace[k].item.k < n
    ensures s.gl.framebuffer == DefaultFramebuffer || n == 0
    ensures s.gl.clipDistance == gl.clipDistance && (Rested(gl) ==> Rested(s.gl))
  {
    if n > 0 then RenderSprites(n, ScreenTarget, gl)
    else Step(gl, [])
  }

  /**
    flush: the scene into the screen framebuffer, the water pass if there
    are waters, the sprite pass if there are sprites, the screen composite
    into the window; then every queue is cleared. The water pass reads the
    first directional light without checking that there is one.
   */
  function Flush(r: Renderer, eye: Camera, skybox: bool, viewOf: Camera -> Mat4): (f: Frame)
    requires |r.queues.waters| > 0 ==> |r.queues.directionalLights| > 0
    requires r.gl.framebuffer == DefaultFramebuffer && !r.gl.clipDistance
    ensures IsEmpty(f.renderer.queues)
    ensures f.renderer.(queues := r.queues, gl := r.gl) == r
    ensures f.camera == eye
    ensures Rested(r.gl.(program := NoProgram)) ==> Rested(f.renderer.gl)
    ensures f.renderer.gl.framebuffer == DefaultFramebuffer && !f.renderer.gl.clipDistance
  {
    var scene := MainScene(r, eye, skybox, viewOf);
    var waters := WaterPhase(r, eye, skybox, viewOf, scene.gl);
    var sprites := SpritePhase(|r.queues.sprites|, waters.gl);
    var screen := RenderScreen(DefaultFramebuffer, sprites.gl);
    Frame(r.(queues := NoRenderables, gl := screen.gl), waters.camera, scene.trace + waters.trace + sprites.trace + screen.trace)
  }

  /** The first frame after construction leaves the GL state at rest, the constructor's leftover program included. */
  lemma FirstFlushRests(displayWidth: int, displayHeight: int, renderWidth: int, renderHeight: int,
                        reflectionWidth: int, reflectionHeight: int, refractionWidth: int, refractionHeight: int,
                        eye: Camera, skybox: bool, viewOf: Camera -> Mat4)
    ensures var r := Create(displayWidth, displayHeight, renderWidth, renderHeight,
                            reflectionWidth, reflectionHeight, refractionWidth, refractionHeight);
      Rested(Flush(r, eye, skybox, viewOf).renderer.gl)
  {
  }

  /**
    The order a frame's draws keep: the first `main` events are the main
    scene render's and every quad comes after them; water quads come before
    sprite quads; the screen quad is drawn exactly once, last.
   */
  predicate QuadsInOrder(t: seq<Event>, main: nat) {
    && main <= |t|
    && (forall k :: 0 <= k < |t| && QuadRank(t[k]) > 0 ==> main <= k)
    && (forall i, j :: 0 <= i < j < |t| && QuadRank(t[i]) > 0 && QuadRank(t[j]) > 0 ==> QuadRank(t[i]) <= QuadRank(t[j]))
    && |t| > 0 && QuadRank(t[|t| - 1]) == 3
    && (forall k :: 0 <= k < |t| - 1 ==> QuadRank(t[k]) < 3)
  }

  /**
    flush opens with the main scene render, whose events come first; every
    water quad and sprite quad comes after it, every water quad before every
    sprite quad, and the screen composite once, last.
   */
  lemma FlushOrder(r: Renderer, eye: Camera, skybox: bool, viewOf: Camera -> Mat4)
    requires |r.queues.waters| > 0 ==> |r.queues.directionalLights| > 0
    requires r.gl.framebuffer == DefaultFramebuffer && !r.gl.clipDistance
    ensures var scene := MainScene(r, eye, skybox, viewOf).trace;
      var t := Flush(r, eye, skybox, viewOf).trace;
      t[..|scene|] == scene && QuadsInOrder(t, |scene|)
  {
    var scene := MainScene(r, eye, skybox, viewOf);
    var waters := WaterPhase(r, eye, skybox, viewOf, scene.gl);
    var sprites := SpritePhase(|r.queues.sprites|, waters.gl);
    var screen := RenderScreen(DefaultFramebuffer, sprites.gl);
    PhasesInOrder(scene.trace, waters.trace, sprites.trace, screen.trace, r.queues.waters, eye);
  }

  /**
    flush draws one water quad per tile, in queue order, and no sprite quad
    for a sprite it was not given: with no waters there is no water quad,
    with no sprites no sprite quad.
   */
  lemma FlushQuads(r: Renderer, eye: Camera, skybox: bool, viewOf: Camera -> Mat4)
    requires |r.queues.waters| > 0 ==> |r.queues.directionalLights| > 0
    requires r.gl.framebuffer == DefaultFramebuffer && !r.gl.clipDistance
    ensures var t := Flush(r, eye, skybox, viewOf).trace;
      && WaterQuads(t) == AllWaterQuads(r.queues.waters, 0, eye)
      && (forall k :: 0 <= k < |t| && t[k].Draw? && t[k].item.SpriteQuad? ==> t[k].item.k < |r.queues.sprites|)
  {
    var scene := MainScene(r, eye, skybox, viewOf);
    var waters := WaterPhase(r, eye, skybox, viewOf, scene.gl);
    var sprites := SpritePhase(|r.queues.sprites|, waters.gl);
    var screen := RenderScreen(DefaultFramebuffer, sprites.gl);
    PhaseWaterQuads(scene.trace, waters.trace, sprites.trace, screen.trace, |r.queues.sprites|);
    PhaseSpriteQuads(scene.trace, waters.trace, sprites.trace, screen.trace, r.queues.waters, eye, |r.queues.sprites|);
  }

  /** A frame opens with the main scene from the eye into the screen framebuffer, and ends with the composite into the window. */
  lemma FlushFrameEnds(r: Renderer, eye: Camera, skybox: bool, viewOf: Camera -> Mat4)
    requires |r.queues.waters| > 0 ==> |r.queues.directionalLights| > 0
    requires r.gl.framebuffer == DefaultFramebuffer && !r.gl.clipDistance
    ensures FrameEnds(Flush(r, eye, skybox, viewOf).trace, SceneBegin(ScreenTarget, r.renderWidth, r.renderHeight, eye, ZeroPlane))
  {
    var scene := MainScene(r, eye, skybox, viewOf);
    var waters := WaterPhase(r, eye, skybox, viewOf, scene.gl);
    var sprites := SpritePhase(|r.queues.sprites|, waters.gl);
    var screen := RenderScreen(DefaultFramebuffer, sprites.gl);
    FrameTraceEnds(scene.trace, waters.trace + sprites.trace, screen.trace);
  }

  /** A frame that opens with `first` and closes with the composite into the window. */
  predicate FrameEnds(t: seq<Event>, first: Event) {
    && |t| > 0 && t[0] == first
    && t[|t| - 1].Draw? && t[|t| - 1].item == ScreenQuad && t[|t| - 1].gl.framebuffer == DefaultFramebuffer
  }

  lemma FrameTraceEnds(scene: seq<Event>, middle: seq<Event>, screen: seq<Event>)
    requires |scene| > 0
    requires |screen| == 1 && screen[0].Draw? && screen[0].item == ScreenQuad && screen[0].gl.framebuffer == DefaultFramebuffer
    ensures FrameEnds(scene + middle + screen, scene[0])
  {
  }

  /** A frame's four phases, joined in order, keep its quads in order. */
  lemma PhasesInOrder(scene: seq<Event>, waters: seq<Event>, sprites: seq<Event>, screen: seq<Event>,
                      queued: seq<Water>, eye: Camera)
    requires forall k :: 0 <= k < |scene| ==> SceneEvent(scene[k])
    requires forall k :: 0 <= k < |waters| ==> WaterPassEvent(waters[k], queued, 0, eye)
    requires forall k :: 0 <= k < |sprites| ==> sprites[k].Draw? && sprites[k].item.SpriteQuad?
    requires |screen| == 1 && screen[0].Draw? && screen[0].item == ScreenQuad
    ensures (scene + waters + sprites + screen)[..|scene|] == scene
    ensures QuadsInOrder(scene + waters + sprites + screen, |scene|)
  {
    var t := scene + waters + sprites + screen;
    var w, p := |scene| + |waters|, |scene| + |waters| + |sprites|;
    assert t[..|scene|] == scene;
    assert |t| == p + 1 && t[p] == screen[0];
    forall k | 0 <= k < |t|
      ensures k < |scene| ==> QuadRank(t[k]) == 0
      ensures |scene| <= k < w ==> QuadRank(t[k]) <= 1
      ensures w <= k < p ==> QuadRank(t[k]) == 2
    {
      if k < |scene| {
        assert t[k] == scene[k];
      } else if k < w {
        assert t[k] == waters[k - |scene|];
      } else if k < p {
        assert t[k] == sprites[k - w];
      }
    }
  }

  /** A frame's four phases, joined in order, draw the water quads of the water phase and no others. */
  lemma PhaseWaterQuads(scene: seq<Event>, waters: seq<Event>, sprites: seq<Event>, screen: seq<Event>, n: nat)
    requires forall k :: 0 <= k < |scene| ==> SceneEvent(scene[k])
    requires forall k :: 0 <= k < |sprites| ==> sprites[k].Draw? && sprites[k].item.SpriteQuad? && sprites[k].item.k < n
    requires |screen| == 1 && screen[0].Draw? && screen[0].item == ScreenQuad
    ensures WaterQuads(scene + waters + sprites + screen) == WaterQuads(waters)
  {
    NoWaterQuads(scene);
    NoWaterQuads(sprites);
    NoWaterQuads(screen);
    WaterQuadsAppend(scene, waters);
    WaterQuadsAppend(scene + waters, sprites);
    WaterQuadsAppend(scene + waters + sprites, screen);
  }

  /** A frame's four phases, joined in order, draw the sprite quads of the sprite phase and no others. */
  lemma PhaseSpriteQuads(scene: seq<Event>, waters: seq<Event>, sprites: seq<Event>, screen: seq<Event>,
                         queued: seq<Water>, eye: Camera, n: nat)
    requires forall k :: 0 <= k < |scene| ==> SceneEvent(scene[k])
    requires forall k :: 0 <= k < |waters| ==> WaterPassEvent(waters[k], queued, 0, eye)
    requires forall k :: 0 <= k < |sprites| ==> sprites[k].Draw? && sprites[k].item.SpriteQuad? && sprites[k].item.k < n
    requires |screen| == 1 && screen[0].Draw? && screen[0].item == ScreenQuad
    ensures var t := scene + waters + sprites + screen;
      forall k :: 0 <= k < |t| && t[k].Draw? && t[k].item.SpriteQuad? ==> t[k].item.k < n
  {
    var t := scene + waters + sprites + screen;
    var w := |scene| + |waters|;
    forall k | 0 <= k < |t| && t[k].Draw? && t[k].item.SpriteQuad?
      ensures t[k].item.k < n
    {
      if w <= k < w + |sprites| {
        assert t[k] == sprites[k - w];
      }
    }
  }
}
