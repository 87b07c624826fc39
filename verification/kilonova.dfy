/**
  The older forward renderer of project-kilonova/src/renderer.cpp. Its frame
  (`draw`) has the same four passes as the newer renderer, with these
  differences:
  - there are no terrains and no point-light markers;
  - spot lights are queued but never shadowed or drawn;
  - every object is shaded by one colour program and one forward program
    that selects its light by a uniform;
  - the lighting block is skipped when there are no objects;
  - the skybox is optional and set once with set_skybox;
  - every scene render uses the render size, whatever it draws into;
  - the water mirror touches the height and the pitch only;
  - the water quad is drawn without blending.
 */
module Kilonova {
  import opened GlState
  import opened Scene
  import R = Renderer

  datatype Option<T> = None | Some(value: T)

  /** What a renderer instance keeps between frames: the queues, the skybox, the GL state and the stored sizes. */
  datatype Renderer = Renderer(
    queues: Queues,
    skybox: Option<Cubemap>,
    gl: Gl,
    renderWidth: int, renderHeight: int,
    shadowWidth: int, shadowHeight: int,
    reflectionWidth: int, reflectionHeight: int,
    refractionWidth: int, refractionHeight: int)

  /**
    The constructor: the reflection and refraction sizes start as the render
    size. No skybox is set until set_skybox is called.
   */
  function Create(renderWidth: int, renderHeight: int, shadowWidth: int, shadowHeight: int): (r: Renderer)
    ensures r.reflectionWidth == r.renderWidth == renderWidth && r.reflectionHeight == r.renderHeight == renderHeight
    ensures r.refractionWidth == renderWidth && r.refractionHeight == renderHeight
    ensures r.shadowWidth == shadowWidth && r.shadowHeight == shadowHeight
    ensures IsEmpty(r.queues) && r.skybox == None && Rested(r.gl)
  {
    Renderer(NoRenderables, None, Initial, renderWidth, renderHeight, shadowWidth, shadowHeight,
             renderWidth, renderHeight, renderWidth, renderHeight)
  }

  /**
    add_object, add_directional_light, add_point_light, add_spot_light,
    add_water, add_sprite. This renderer has no add_terrain, so a terrain is
    not something it can be given.
   */
  function Submit(r: Renderer, x: Renderable): (r': Renderer)
    requires !x.ATerrain?
    ensures Queue(r'.queues, KindOf(x)) == Queue(r.queues, KindOf(x)) + [x]
    ensures forall k :: k != KindOf(x) ==> Queue(r'.queues, k) == Queue(r.queues, k)
    ensures r'.(queues := r.queues) == r
  {
    r.(queues := Add(r.queues, x))
  }

  /** set_skybox: the cubemap replaces any earlier one and stays until replaced. */
  function SetSkybox(r: Renderer, c: Cubemap): (r': Renderer)
    ensures r'.skybox == Some(c)
    ensures r'.(skybox := r.skybox) == r
  {
    r.(skybox := Some(c))
  }

  // ---------------------------------------------------------------- render_scene

  /** One colour program for the black base draw, one forward program for every light. */
  const ObjectShading: Shading := Shading(ColorProgram, ForwardProgram, ForwardProgram, ForwardProgram)

  /** The lights forward shading accumulates: every directional and every point light, never a spot light. */
  function SceneLights(q: Queues): Lights {
    Lights(|q.directionalLights|, |q.pointLights|, 0)
  }

  /** The shadow passes: every directional light, then every point light, captures every object. Spot lights cast none. */
  function Shadows(q: Queues, gl: Gl): (s: Step)
    ensures gl.program == NoProgram ==> s.gl.(framebuffer := DefaultFramebuffer) == gl.(framebuffer := DefaultFramebuffer)
    ensures forall j :: 0 <= j < |s.trace| ==> R.ShadowCapture(s.trace[j])
  {
    var directional := ShadowPasses(DirectionalKind, |q.objects|, 0, 0, |q.directionalLights|, gl);
    var point := ShadowPasses(PointKind, |q.objects|, 0, 0, |q.pointLights|, directional.gl);
    ShadowsLeaveGl(q, gl);
    R.ShadowDrawsCapture(directional.trace, DirectionalKind, |q.directionalLights|, gl);
    R.ShadowDrawsCapture(point.trace, PointKind, |q.pointLights|, directional.gl);
    R.CapturesAppend(directional.trace, point.trace, []);
    assert directional.trace + point.trace + [] == directional.trace + point.trace;
    Step(point.gl, directional.trace + point.trace)
  }

  /** With nothing bound on entry, the shadow passes leave nothing bound and otherwise the state they found, up to the framebuffer. */
  lemma ShadowsLeaveGl(q: Queues, gl: Gl)
    ensures var directional := ShadowPasses(DirectionalKind, |q.objects|, 0, 0, |q.directionalLights|, gl);
      var point := ShadowPasses(PointKind, |q.objects|, 0, 0, |q.pointLights|, directional.gl);
      gl.program == NoProgram ==> point.gl.(framebuffer := DefaultFramebuffer) == gl.(framebuffer := DefaultFramebuffer)
  {
    if gl.program == NoProgram {
      var directional := ShadowPasses(DirectionalKind, |q.objects|, 0, 0, |q.directionalLights|, gl);
      R.ShadowPassesLeaveGl(DirectionalKind, |q.objects|, 0, |q.directionalLights|, gl);
      R.ShadowPassesLeaveGl(PointKind, |q.objects|, 0, |q.pointLights|, directional.gl);
    }
  }

  /**
    The lighting block, run only when there are objects: into `target` with
    clipping on, each object's black base draw with the colour program, then
    its light accumulation; afterwards clipping off and framebuffer 0.
   */
  function Lighting(q: Queues, target: Framebuffer, gl: Gl): (s: Step)
    ensures |q.objects| == 0 ==> s == Step(gl, [])
    ensures |q.objects| > 0 ==> s.gl == Settled(gl).(framebuffer := DefaultFramebuffer, clipDistance := false)
  {
    if |q.objects| > 0 then
      var lit := ObjectsLit(q, target, gl);
      Step(lit.gl.(clipDistance := false, framebuffer := DefaultFramebuffer), lit.trace)
    else Step(gl, [])
  }

  /** The object loop of the lighting block. */
  function ObjectsLit(q: Queues, target: Framebuffer, gl: Gl): Step {
    LitMeshes(ObjectList, ObjectShading, SceneLights(q), true, 0, |q.objects|, gl.(framebuffer := target, clipDistance := true))
  }

  /** The skybox, drawn only when one is set, into `target`; framebuffer 0 afterwards either way. */
  function Sky(target: Framebuffer, view: Mat4, skybox: Option<Cubemap>, gl: Gl): (s: Step)
    ensures skybox == None ==> s == Step(gl.(framebuffer := DefaultFramebuffer), [])
  {
    if skybox.Some? then
      var sky := R.SkyboxPass(target, view, true, gl);
      Step(sky.gl.(framebuffer := DefaultFramebuffer), sky.trace)
    else Step(gl.(framebuffer := DefaultFramebuffer), [])
  }

  /** The draws of one scene render, pass by pass. */
  datatype SceneParts = SceneParts(shadows: Step, lit: Step, sky: Step)

  function Parts(q: Queues, target: Framebuffer, eye: Camera, skybox: Option<Cubemap>, viewOf: Camera -> Mat4,
                 gl: Gl): SceneParts {
    var shadows := Shadows(q, gl.(framebuffer := DefaultFramebuffer));
    var lit := Lighting(q, target, shadows.gl);
    var sky := Sky(target, viewOf(eye), skybox, lit.gl);
    SceneParts(shadows, lit, sky)
  }

  /**
    render_scene in the FORWARD lighting mode: the clear (at the render
    size, whatever the target), the shadow passes, the lighting block, the
    skybox.
   */
  function RenderScene(q: Queues, target: Framebuffer, width: int, height: int, eye: Camera,
                       skybox: Option<Cubemap>, viewOf: Camera -> Mat4, clip: Plane, gl: Gl): (s: Step)
    ensures |s.trace| > 0 && s.trace[0] == SceneBegin(target, width, height, eye, clip)
    ensures forall j :: 1 <= j < |s.trace| ==> R.SceneDraw(s.trace[j], target)
    ensures s.gl.framebuffer == DefaultFramebuffer
    ensures Rested(gl) ==> Rested(s.gl)
  {
    var p := Parts(q, target, eye, skybox, viewOf, gl);
    var begin := SceneBegin(target, width, height, eye, clip);
    PartsGl(q, target, eye, skybox, viewOf, gl);
    PartsDraws(q, target, eye, skybox, viewOf, gl);
    SceneTrace(begin, p.shadows.trace, p.lit.trace, p.sky.trace, target);
    Step(p.sky.gl, [begin] + p.shadows.trace + p.lit.trace + p.sky.trace)
  }

  /** A scene render ends with framebuffer 0 bound and keeps a rested state rested. */
  lemma PartsGl(q: Queues, target: Framebuffer, eye: Camera, skybox: Option<Cubemap>, viewOf: Camera -> Mat4, gl: Gl)
    ensures var g := Parts(q, target, eye, skybox, viewOf, gl).sky.gl;
      g.framebuffer == DefaultFramebuffer && (Rested(gl) ==> Rested(g))
  {
  }

  /** Shadow captures, object draws into the target, and the skybox into the target. */
  lemma PartsDraws(q: Queues, target: Framebuffer, eye: Camera, skybox: Option<Cubemap>, viewOf: Camera -> Mat4, gl: Gl)
    ensures var p := Parts(q, target, eye, skybox, viewOf, gl);
      && R.LitDraws(p.shadows.trace, p.lit.trace, target)
      && R.UnlitDraws(p.sky.trace, [], target)
  {
    var p := Parts(q, target, eye, skybox, viewOf, gl);
    LightingDraws(q, target, p.shadows.gl);
    SkyDraws(target, viewOf(eye), skybox, p.lit.gl);
  }

  /** The lighting block draws only queued objects, into the target. */
  lemma LightingDraws(q: Queues, target: Framebuffer, gl: Gl)
    ensures var t := Lighting(q, target, gl).trace;
      forall j :: 0 <= j < |t| ==> t[j].Draw? && t[j].gl.framebuffer == target && 0 <= IndexIn(ObjectList, t[j].item)
  {
    if |q.objects| > 0 {
      var t := ObjectsLit(q, target, gl).trace;
      assert forall j :: 0 <= j < |t| ==> ShadedDraw(t[j], ObjectList, ObjectShading, SceneLights(q), true, 0, |q.objects|,
                                                     gl.(framebuffer := target, clipDistance := true));
    }
  }

  /** The skybox pass draws only the skybox cube, into the target. */
  lemma SkyDraws(target: Framebuffer, view: Mat4, skybox: Option<Cubemap>, gl: Gl)
    ensures var t := Sky(target, view, skybox, gl).trace;
      forall j :: 0 <= j < |t| ==> t[j].Draw? && t[j].item.SkyboxCube? && t[j].gl.framebuffer == target
  {
  }

  lemma SceneTrace(begin: Event, shadows: seq<Event>, lit: seq<Event>, sky: seq<Event>, target: Framebuffer)
    requires R.LitDraws(shadows, lit, target) && R.UnlitDraws(sky, [], target)
    ensures var t := [begin] + shadows + lit + sky;
      forall j :: 1 <= j < |t| ==> R.SceneDraw(t[j], target)
  {
    var empty := Step(Initial, []);
    R.SceneTrace(begin, R.SceneParts(Step(Initial, shadows), Step(Initial, lit), Step(Initial, sky), empty), target);
    assert [begin] + shadows + lit + sky + [] == [begin] + shadows + lit + sky;
  }

  // ---------------------------------------------------------------- counting a scene render's draws

  /** Whether the shadow passes capture `item` for light `l` with `program`: a queued object and a queued directional or point light. */
  predicate Captured(q: Queues, program: Program, item: Item, l: LightRef) {
    && 0 <= IndexIn(ObjectList, item) < |q.objects|
    && match l
       case Directional(i) => program == DepthProgram && i < |q.directionalLights|
       case Point(i) => program == DepthCubeProgram && i < |q.pointLights|
       case _ => false
  }

  /** Whether the lighting block draws `item` lit by `l` with `program`. */
  predicate ObjectLit(q: Queues, program: Program, item: Item, l: LightRef) {
    && program == ProgramFor(ObjectShading, l)
    && 0 <= IndexIn(ObjectList, item) < |q.objects|
    && Lit(SceneLights(q), l)
  }

  /** Whether the skybox pass draws `item` lit by `l` with `program`: only the set skybox, with the view stripped of translation. */
  predicate SkyDrawn(view: Mat4, skybox: Option<Cubemap>, program: Program, item: Item, l: LightRef) {
    skybox.Some? && program == SkyboxProgram && item == SkyboxCube(ZeroTranslation(view), true) && l == Unlit
  }

  lemma ShadowsCount(q: Queues, gl: Gl, program: Program, item: Item, l: LightRef)
    ensures Count(Shadows(q, gl).trace, program, item, l) == if Captured(q, program, item, l) then 1 else 0
  {
    var directional := ShadowPasses(DirectionalKind, |q.objects|, 0, 0, |q.directionalLights|, gl);
    var point := ShadowPasses(PointKind, |q.objects|, 0, 0, |q.pointLights|, directional.gl);
    CountAppend(directional.trace, point.trace, program, item, l);
    R.ShadowPassesCountAny(DirectionalKind, |q.objects|, 0, |q.directionalLights|, gl, program, item, l);
    R.ShadowPassesCountAny(PointKind, |q.objects|, 0, |q.pointLights|, directional.gl, program, item, l);
    CapturedSum(q, program, item, l, Count(directional.trace, program, item, l), Count(point.trace, program, item, l));
  }

  /** Directional and point captures add up to the captures of the whole queue. */
  lemma CapturedSum(q: Queues, program: Program, item: Item, l: LightRef, d: nat, p: nat)
    requires d == if R.CapturedBy(DirectionalKind, |q.directionalLights|, |q.objects|, 0, program, item, l) then 1 else 0
    requires p == if R.CapturedBy(PointKind, |q.pointLights|, |q.objects|, 0, program, item, l) then 1 else 0
    ensures d + p == if Captured(q, program, item, l) then 1 else 0
  {
  }

  lemma LightingCount(q: Queues, target: Framebuffer, gl: Gl, program: Program, item: Item, l: LightRef)
    ensures Count(Lighting(q, target, gl).trace, program, item, l) == if ObjectLit(q, program, item, l) then 1 else 0
  {
    if |q.objects| > 0 {
      LitMeshesCountAny(ObjectList, ObjectShading, SceneLights(q), |q.objects|, gl.(framebuffer := target, clipDistance := true),
                        program, item, l);
    }
  }

  lemma SkyCount(target: Framebuffer, view: Mat4, skybox: Option<Cubemap>, gl: Gl, program: Program, item: Item, l: LightRef)
    ensures Count(Sky(target, view, skybox, gl).trace, program, item, l) == if SkyDrawn(view, skybox, program, item, l) then 1 else 0
  {
    if skybox.Some? {
      R.SkyboxCount(target, view, true, gl, program, item, l);
    }
  }

  /** Every draw of a scene render, counted: the shadow captures, the object lighting and the skybox. */
  lemma SceneCount(q: Queues, target: Framebuffer, width: int, height: int, eye: Camera,
                   skybox: Option<Cubemap>, viewOf: Camera -> Mat4, clip: Plane, gl: Gl, program: Program, item: Item, l: LightRef)
    ensures Count(RenderScene(q, target, width, height, eye, skybox, viewOf, clip, gl).trace, program, item, l)
         == (if Captured(q, program, item, l) then 1 else 0)
          + (if ObjectLit(q, program, item, l) then 1 else 0)
          + (if SkyDrawn(viewOf(eye), skybox, program, item, l) then 1 else 0)
  {
    var p := Parts(q, target, eye, skybox, viewOf, gl);
    var begin := SceneBegin(target, width, height, eye, clip);
    CountAppend3([begin] + p.shadows.trace, p.lit.trace, p.sky.trace, program, item, l);
    CountCons(begin, p.shadows.trace, program, item, l);
    ShadowsCount(q, gl.(framebuffer := DefaultFramebuffer), program, item, l);
    LightingCount(q, target, p.shadows.gl, program, item, l);
    SkyCount(target, viewOf(eye), skybox, p.lit.gl, program, item, l);
  }

  /**
    Every object gets one black base draw with the colour program, then one
    forward draw per directional light and one per point light; nothing
    else is drawn with those programs.
   */
  lemma SceneObjectDraws(q: Queues, target: Framebuffer, width: int, height: int, eye: Camera,
                         skybox: Option<Cubemap>, viewOf: Camera -> Mat4, clip: Plane, gl: Gl, item: Item, l: LightRef)
    ensures Count(RenderScene(q, target, width, height, eye, skybox, viewOf, clip, gl).trace, ColorProgram, item, l)
         == if l == Unlit && 0 <= IndexIn(ObjectList, item) < |q.objects| then 1 else 0
    ensures Count(RenderScene(q, target, width, height, eye, skybox, viewOf, clip, gl).trace, ForwardProgram, item, l)
         == if 0 <= IndexIn(ObjectList, item) < |q.objects|
               && (|| (l.Directional? && l.i < |q.directionalLights|)
                   || (l.Point? && l.i < |q.pointLights|))
            then 1 else 0
  {
    SceneCount(q, target, width, height, eye, skybox, viewOf, clip, gl, ColorProgram, item, l);
    SceneCount(q, target, width, height, eye, skybox, viewOf, clip, gl, ForwardProgram, item, l);
    PassesByProgram(q, viewOf(eye), skybox, ColorProgram, item, l);
    PassesByProgram(q, viewOf(eye), skybox, ForwardProgram, item, l);
  }

  /** Which pass can draw with which program: the sum a scene render's count is made of, per program. */
  lemma PassesByProgram(q: Queues, view: Mat4, skybox: Option<Cubemap>, program: Program, item: Item, l: LightRef)
    ensures var n := (if Captured(q, program, item, l) then 1 else 0)
                   + (if ObjectLit(q, program, item, l) then 1 else 0)
                   + (if SkyDrawn(view, skybox, program, item, l) then 1 else 0);
      && (program == ColorProgram ==> n == if l == Unlit && 0 <= IndexIn(ObjectList, item) < |q.objects| then 1 else 0)
      && (program == ForwardProgram ==>
            n == if 0 <= IndexIn(ObjectList, item) < |q.objects|
                    && (|| (l.Directional? && l.i < |q.directionalLights|)
                        || (l.Point? && l.i < |q.pointLights|))
                 then 1 else 0)
      && (program == DepthProgram && l.Directional? ==>
            n == if 0 <= IndexIn(ObjectList, item) < |q.objects| && l.i < |q.directionalLights| then 1 else 0)
      && (program == DepthCubeProgram && l.Point? ==>
            n == if 0 <= IndexIn(ObjectList, item) < |q.objects| && l.i < |q.pointLights| then 1 else 0)
      && (l.Spot? ==> n == 0)
  {
  }

  /** Spot lights are queued but never shadowed nor drawn: no draw of a scene render is lit by one. */
  lemma SpotLightsIgnored(q: Queues, target: Framebuffer, width: int, height: int, eye: Camera,
                          skybox: Option<Cubemap>, viewOf: Camera -> Mat4, clip: Plane, gl: Gl,
                          program: Program, item: Item, i: nat)
    ensures Count(RenderScene(q, target, width, height, eye, skybox, viewOf, clip, gl).trace, program, item, Spot(i)) == 0
  {
    SceneCount(q, target, width, height, eye, skybox, viewOf, clip, gl, program, item, Spot(i));
    PassesByProgram(q, viewOf(eye), skybox, program, item, Spot(i));
  }

  /** Every directional light captures every object into its depth map, and every point light into its cubemap. */
  lemma SceneShadowDraws(q: Queues, target: Framebuffer, width: int, height: int, eye: Camera,
                         skybox: Option<Cubemap>, viewOf: Camera -> Mat4, clip: Plane, gl: Gl, item: Item, i: nat)
    ensures Count(RenderScene(q, target, width, height, eye, skybox, viewOf, clip, gl).trace, DepthProgram, item, Directional(i))
         == if 0 <= IndexIn(ObjectList, item) < |q.objects| && i < |q.directionalLights| then 1 else 0
  {
    SceneCount(q, target, width, height, eye, skybox, viewOf, clip, gl, DepthProgram, item, Directional(i));
    PassesByProgram(q, viewOf(eye), skybox, DepthProgram, item, Directional(i));
  }

  /** Every object is drawn exactly once into each point light's shadow cube map, with the cube-map depth program. */
  lemma ScenePointShadowDraws(q: Queues, target: Framebuffer, width: int, height: int, eye: Camera,
                              skybox: Option<Cubemap>, viewOf: Camera -> Mat4, clip: Plane, gl: Gl, item: Item, i: nat)
    ensures Count(RenderScene(q, target, width, height, eye, skybox, viewOf, clip, gl).trace, DepthCubeProgram, item, Point(i))
         == if 0 <= IndexIn(ObjectList, item) < |q.objects| && i < |q.pointLights| then 1 else 0
  {
    SceneCount(q, target, width, height, eye, skybox, viewOf, clip, gl, DepthCubeProgram, item, Point(i));
    PassesByProgram(q, viewOf(eye), skybox, DepthCubeProgram, item, Point(i));
  }

  /** The skybox is drawn once, with the view stripped of translation, exactly when one is set. */
  lemma SceneSkyboxDraw(q: Queues, target: Framebuffer, width: int, height: int, eye: Camera,
                        skybox: Option<Cubemap>, viewOf: Camera -> Mat4, clip: Plane, gl: Gl)
    ensures Count(RenderScene(q, target, width, height, eye, skybox, viewOf, clip, gl).trace,
                  SkyboxProgram, SkyboxCube(ZeroTranslation(viewOf(eye)), true), Unlit)
         == if skybox.Some? then 1 else 0
  {
    SceneCount(q, target, width, height, eye, skybox, viewOf, clip, gl,
               SkyboxProgram, SkyboxCube(ZeroTranslation(viewOf(eye)), true), Unlit);
  }

  /** With no objects the lighting block and the shadow passes draw nothing: at most the skybox is drawn. */
  lemma NoObjectsOnlySky(q: Queues, target: Framebuffer, width: int, height: int, eye: Camera,
                         skybox: Option<Cubemap>, viewOf: Camera -> Mat4, clip: Plane, gl: Gl,
                         program: Program, item: Item, l: LightRef)
    requires |q.objects| == 0
    ensures Count(RenderScene(q, target, width, height, eye, skybox, viewOf, clip, gl).trace, program, item, l)
         == if SkyDrawn(viewOf(eye), skybox, program, item, l) then 1 else 0
  {
    SceneCount(q, target, width, height, eye, skybox, viewOf, clip, gl, program, item, l);
  }

  /**
    Each object's light draws are additive with the forward program, and its
    base draw is opaque when the block starts opaque; the block leaves depth
    func LESS, depth writes on and blending off.
   */
  lemma LightingState(q: Queues, target: Framebuffer, gl: Gl)
    requires |q.objects| > 0
    ensures Opaque(Lighting(q, target, gl).gl)
    ensures var t := Lighting(q, target, gl).trace;
      forall j :: 0 <= j < |t| ==>
        && (t[j].light != Unlit ==> Accumulating(t[j].gl) && t[j].gl.program == ForwardProgram)
        && (t[j].light == Unlit ==> t[j].gl.program == ColorProgram && (Opaque(gl) ==> Opaque(t[j].gl)))
  {
    var t := ObjectsLit(q, target, gl).trace;
    assert forall j :: 0 <= j < |t| ==> ShadedDraw(t[j], ObjectList, ObjectShading, SceneLights(q), true, 0, |q.objects|,
                                                   gl.(framebuffer := target, clipDistance := true));
  }

  // ---------------------------------------------------------------- render_waters

  /** The camera mirrored in the water plane at height h: the height reflected and the pitch negated; roll is left alone. */
  function Mirror(eye: Camera, h: real): (m: Camera)
    ensures m.y - h == h - eye.y && m.pitch == -eye.pitch
    ensures m.x == eye.x && m.z == eye.z && m.yaw == eye.yaw && m.roll == eye.roll
    ensures eye.y > h <==> m.y < h
  {
    eye.(y := eye.y - 2.0 * (eye.y - h), pitch := -eye.pitch)
  }

  /** Writing back the saved height and pitch. */
  function Restore(c: Camera, saved: Camera): Camera {
    c.(y := saved.y, pitch := saved.pitch)
  }

  /** Restoring the saved height and pitch gives back the camera exactly; the roll was never touched. */
  lemma RestoreUndoesMirror(eye: Camera, h: real)
    ensures Restore(Mirror(eye, h), eye) == eye
    ensures Mirror(eye, h).roll == eye.roll
  {
  }

  /** The scene renders one water tile asks for, in order; both at the render size. */
  function WaterScenes(r: Renderer, eye: Camera, w: Water): seq<Event> {
    (if R.Reflects(eye, w)
     then [SceneBegin(ReflectionTarget, r.renderWidth, r.renderHeight, Mirror(eye, w.y), R.ReflectionPlane(w.y))]
     else [])
    + [SceneBegin(RefractionTarget, r.renderWidth, r.renderHeight, eye, R.RefractionPlane(eye, w.y))]
  }

  /**
    One water tile: the reflection render from the mirrored camera when the
    camera is above the water, the refraction render, then the water quad
    with the reflection texture bound only when a reflection was rendered.
    No blending is switched on for the quad.
   */
  function RenderWater(r: Renderer, j: nat, eye: Camera, viewOf: Camera -> Mat4, target: Framebuffer, gl: Gl): (s: R.WaterStep)
    requires j < |r.queues.waters|
    ensures s.camera == eye
    ensures Scenes(s.trace) == WaterScenes(r, eye, r.queues.waters[j])
    ensures |s.trace| > 0 && s.trace[|s.trace| - 1].Draw?
    ensures var quad := s.trace[|s.trace| - 1];
      && quad.item == WaterQuad(j, R.Reflects(eye, r.queues.waters[j])) && quad.light == Unlit
      && quad.gl.program == WaterProgram && quad.gl.framebuffer == target
      && (Rested(gl) ==> !quad.gl.blend)
    ensures forall k :: 0 <= k < |s.trace| - 1 ==> R.SceneEvent(s.trace[k])
    ensures s.gl.framebuffer == DefaultFramebuffer
    ensures Rested(gl) ==> Rested(s.gl)
  {
    var w := r.queues.waters[j];
    var reflect := eye.y > w.y;
    var mirrored := Mirror(eye, w.y);
    var reflection :=
      if reflect
      then RenderScene(r.queues, ReflectionTarget, r.renderWidth, r.renderHeight, mirrored, r.skybox, viewOf,
                       R.ReflectionPlane(w.y), gl)
      else Step(gl, []);
    var camera := if reflect then Restore(mirrored, eye) else eye;
    var refraction := RenderScene(r.queues, RefractionTarget, r.renderWidth, r.renderHeight, camera, r.skybox, viewOf,
                                  R.RefractionPlane(camera, w.y), reflection.gl);
    var quad := refraction.gl.(framebuffer := target, program := WaterProgram);
    var draw := [Draw(WaterQuad(j, reflect), Unlit, quad)];
    R.WaterTrace(reflection.trace, ReflectionTarget, refraction.trace, RefractionTarget, draw);
    R.WaterStep(camera, quad.(program := NoProgram, framebuffer := DefaultFramebuffer), reflection.trace + refraction.trace + draw)
  }

  /**
    The water tiles from..|waters|, in queue order; every tile hands the
    camera back unchanged. Per tile it renders the reflection (camera above
    the water only) and the refraction, and draws exactly one quad, recording
    whether that tile had a reflection.
   */
  function RenderWaters(r: Renderer, from: nat, eye: Camera, viewOf: Camera -> Mat4, target: Framebuffer, gl: Gl): (s: R.WaterStep)
    requires from <= |r.queues.waters|
    ensures s.camera == eye
    ensures forall k :: 0 <= k < |s.trace| ==> R.WaterPassEvent(s.trace[k], r.queues.waters, from, eye)
    ensures from < |r.queues.waters| ==> s.gl.framebuffer == DefaultFramebuffer
    ensures from == |r.queues.waters| ==> s.gl == gl
    ensures Rested(gl) ==> Rested(s.gl)
    ensures Scenes(s.trace) == AllWaterScenes(r, from, eye)
    ensures R.WaterQuads(s.trace) == R.AllWaterQuads(r.queues.waters, from, eye)
    decreases |r.queues.waters| - from
  {
    if from == |r.queues.waters| then R.WaterStep(eye, gl, [])
    else
      var first := RenderWater(r, from, eye, viewOf, target, gl);
      var rest := RenderWaters(r, from + 1, first.camera, viewOf, target, first.gl);
      R.TileThenRest(first.trace, rest.trace, r.queues.waters, from, eye);
      ScenesAppend(first.trace, rest.trace);
      R.WaterStep(rest.camera, rest.gl, first.trace + rest.trace)
  }

  /** The scene renders the tiles from..|waters| ask for, in order. */
  function AllWaterScenes(r: Renderer, from: nat, eye: Camera): seq<Event>
    requires from <= |r.queues.waters|
    decreases |r.queues.waters| - from
  {
    if from == |r.queues.waters| then []
    else WaterScenes(r, eye, r.queues.waters[from]) + AllWaterScenes(r, from + 1, eye)
  }

  // ---------------------------------------------------------------- render_screen, draw

  /** The screen composite into `target`: one quad with the depth test off; `target` stays bound afterwards. */
  function RenderScreen(target: Framebuffer, gl: Gl): (s: Step)
    ensures |s.trace| == 1 && s.trace[0].Draw? && s.trace[0].item == ScreenQuad && s.trace[0].light == Unlit
    ensures !s.trace[0].gl.depthTest && s.trace[0].gl.program == ScreenProgram && s.trace[0].gl.framebuffer == target
    ensures s.gl == gl.(depthTest := true, framebuffer := target, program := NoProgram)
  {
    var bound := gl.(framebuffer := target, depthTest := false, program := ScreenProgram);
    Step(bound.(program := NoProgram, depthTest := true), [Draw(ScreenQuad, Unlit, bound)])
  }

  /** The composite binds everything it draws with: two states that differ only in the framebuffer, program and depth test give the same draw and leave the same state. */
  lemma ScreenIgnoresBindings(target: Framebuffer, gl: Gl, gl': Gl)
    requires gl'.(framebuffer := gl.framebuffer, program := gl.program, depthTest := gl.depthTest) == gl
    ensures RenderScreen(target, gl) == RenderScreen(target, gl')
  {
  }

  /** A frame's outcome: the renderer afterwards, the camera handed back and the events. */
  datatype Frame = Frame(renderer: Renderer, camera: Option<Camera>, trace: seq<Event>)

  /** The six queues this renderer clears; the (always empty) terrain queue is not one of its own. */
  function Cleared(q: Queues): (q': Queues)
    ensures q'.terrains == q.terrains
    ensures q'.(terrains := []) == NoRenderables
  {
    q.(objects := [], directionalLights := [], pointLights := [], spotLights := [], waters := [], sprites := [])
  }

  /** The main scene, rendered from the camera into the screen framebuffer with nothing clipped. */
  function MainScene(r: Renderer, eye: Camera, viewOf: Camera -> Mat4): (s: Step)
    ensures |s.trace| > 0 && s.trace[0] == SceneBegin(ScreenTarget, r.renderWidth, r.renderHeight, eye, ZeroPlane)
    ensures forall k :: 0 <= k < |s.trace| ==> R.SceneEvent(s.trace[k])
    ensures Rested(r.gl) ==> Rested(s.gl)
  {
    var scene := RenderScene(r.queues, ScreenTarget, r.renderWidth, r.renderHeight, eye, r.skybox, viewOf, ZeroPlane, r.gl);
    R.OneScene(scene.trace, ScreenTarget);
    scene
  }

  /** The water pass when there are waters (its uniform setup leaves no program bound); nothing otherwise. */
  function WaterPhase(r: Renderer, eye: Camera, viewOf: Camera -> Mat4, gl: Gl): (s: R.WaterStep)
    ensures s.camera == eye
    ensures |r.queues.waters| == 0 ==> s == R.WaterStep(eye, gl, [])
    ensures forall k :: 0 <= k < |s.trace| ==> R.WaterPassEvent(s.trace[k], r.queues.waters, 0, eye)
    ensures R.WaterQuads(s.trace) == R.AllWaterQuads(r.queues.waters, 0, eye)
    ensures Rested(gl) ==> Rested(s.gl)
  {
    if |r.queues.waters| > 0 then RenderWaters(r, 0, eye, viewOf, ScreenTarget, gl.(program := NoProgram))
    else R.WaterStep(eye, gl, [])
  }

  /**
    draw: with no camera, nothing at all; otherwise the scene into the
    screen framebuffer, the water pass if there are waters, the sprite pass
    if there are sprites, the screen composite into the window; then the six
    queues are cleared. The skybox and the sizes are kept.
   */
  function DrawFrame(r: Renderer, camera: Option<Camera>, viewOf: Camera -> Mat4): (f: Frame)
    ensures camera == None ==> f == Frame(r, None, [])
    ensures camera.Some? ==> f.renderer == r.(queues := Cleared(r.queues), gl := f.renderer.gl)
    ensures f.camera == camera
    ensures Rested(r.gl) ==> Rested(f.renderer.gl)
  {
    if camera.None? then Frame(r, None, [])
    else
      var eye := camera.value;
      var scene := MainScene(r, eye, viewOf);
      var waters := WaterPhase(r, eye, viewOf, scene.gl);
      var sprites := R.SpritePhase(|r.queues.sprites|, waters.gl);
      var screen := RenderScreen(DefaultFramebuffer, sprites.gl);
      Frame(r.(queues := Cleared(r.queues), gl := screen.gl), Some(waters.camera),
            scene.trace + waters.trace + sprites.trace + screen.trace)
  }

  /**
    draw opens with the main scene render, whose events come first; every
    water quad and sprite quad comes after it, every water quad before every
    sprite quad, and the screen composite once, last.
   */
  lemma DrawOrder(r: Renderer, eye: Camera, viewOf: Camera -> Mat4)
    ensures var scene := MainScene(r, eye, viewOf).trace;
      var t := DrawFrame(r, Some(eye), viewOf).trace;
      t[..|scene|] == scene && R.QuadsInOrder(t, |scene|)
  {
    var scene := MainScene(r, eye, viewOf);
    var waters := WaterPhase(r, eye, viewOf, scene.gl);
    var sprites := R.SpritePhase(|r.queues.sprites|, waters.gl);
    var screen := RenderScreen(DefaultFramebuffer, sprites.gl);
    R.PhasesInOrder(scene.trace, waters.trace, sprites.trace, screen.trace, r.queues.waters, eye);
  }

  /**
    draw draws one water quad per tile, in queue order, and no sprite quad
    for a sprite it was not given: with no waters there is no water quad,
    with no sprites no sprite quad.
   */
  lemma DrawQuads(r: Renderer, eye: Camera, viewOf: Camera -> Mat4)
    ensures var t := DrawFrame(r, Some(eye), viewOf).trace;
      && R.WaterQuads(t) == R.AllWaterQuads(r.queues.waters, 0, eye)
      && (forall k :: 0 <= k < |t| && t[k].Draw? && t[k].item.SpriteQuad? ==> t[k].item.k < |r.queues.sprites|)
  {
    var scene := MainScene(r, eye, viewOf);
    var waters := WaterPhase(r, eye, viewOf, scene.gl);
    var sprites := R.SpritePhase(|r.queues.sprites|, waters.gl);
    var screen := RenderScreen(DefaultFramebuffer, sprites.gl);
    assert DrawFrame(r, Some(eye), viewOf).trace == scene.trace + waters.trace + sprites.trace + screen.trace;
    R.PhaseWaterQuads(scene.trace, waters.trace, sprites.trace, screen.trace, |r.queues.sprites|);
    R.PhaseSpriteQuads(scene.trace, waters.trace, sprites.trace, screen.trace, r.queues.waters, eye, |r.queues.sprites|);
  }

  /** A frame opens with the main scene from the camera, at the render size with nothing clipped, and ends with the composite into the window. */
  lemma DrawFrameEnds(r: Renderer, eye: Camera, viewOf: Camera -> Mat4)
    ensures R.FrameEnds(DrawFrame(r, Some(eye), viewOf).trace,
                        SceneBegin(ScreenTarget, r.renderWidth, r.renderHeight, eye, ZeroPlane))
  {
    var scene := MainScene(r, eye, viewOf);
    var waters := WaterPhase(r, eye, viewOf, scene.gl);
    var sprites := R.SpritePhase(|r.queues.sprites|, waters.gl);
    var screen := RenderScreen(DefaultFramebuffer, sprites.gl);
    R.FrameTraceEnds(scene.trace, waters.trace + sprites.trace, screen.trace);
  }
}
