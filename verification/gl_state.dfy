/**
  The part of OpenGL's global state that the renderers touch, made explicit.

  The renderers drive the GPU through global bind state: the bound
  framebuffer, the bound shader program, blending, the depth mask, the
  depth comparison, the user clip distance and the depth test. Here that
  state is one immutable record that every pass takes and returns, and every
  draw records the state it was issued under.
 */
module GlState {

  /** The depth comparison function (glDepthFunc). */
  datatype DepthFunc = Less | Equal | LessOrEqual

  /** The blend factors (glBlendFunc). */
  datatype BlendFunc =
    | NoBlendFunc  // GL's initial (ONE, ZERO)
    | Additive     // (ONE, ONE): light accumulation
    | AlphaBlend   // (SRC_ALPHA, ONE_MINUS_SRC_ALPHA): the water quad

  /** A framebuffer binding, named by the target it renders into. */
  datatype Framebuffer =
    | DefaultFramebuffer            // framebuffer 0, the window
    | ScreenTarget                  // the HDR screen framebuffer
    | ReflectionTarget              // the water reflection framebuffer
    | RefractionTarget              // the water refraction framebuffer
    | DirectionalShadowMap(i: nat)  // the depth map owned by directional light i
    | PointShadowCube(i: nat)       // the depth cubemap owned by point light i
    | SpotShadowMap(i: nat)         // the depth map owned by spot light i

  /** The shader program bound with glUseProgram; NoProgram is program 0. */
  datatype Program =
    | NoProgram
    | DepthProgram
    | DepthCubeProgram
    | ColorProgram
    | ForwardAmbientProgram
    | ForwardDirectionalProgram
    | ForwardPointProgram
    | ForwardSpotProgram
    | ForwardProgram  // the single forward program that selects its light by a `light.type` uniform
    | TerrainAmbientProgram
    | TerrainDirectionalProgram
    | TerrainPointProgram
    | TerrainSpotProgram
    | SkyboxProgram
    | WaterProgram
    | SpriteProgram
    | ScreenProgram
    | BrdfProgram  // the BRDF lookup-table program; the constructor deletes it while it is still bound

  datatype Gl = Gl(
    framebuffer: Framebuffer,
    program: Program,
    blend: bool,
    blendFunc: BlendFunc,
    depthMask: bool,
    depthFunc: DepthFunc,
    clipDistance: bool,
    depthTest: bool)

  /** GL's state after a renderer is constructed: depth test on, everything else at GL's defaults. */
  const Initial: Gl := Gl(DefaultFramebuffer, NoProgram, false, NoBlendFunc, true, Less, false, true)

  /** Opaque drawing: no blending, depth writes on, nearest fragment wins. */
  predicate Opaque(gl: Gl) {
    !gl.blend && gl.depthMask && gl.depthFunc == Less
  }

  /** Additive light accumulation onto the fragments the ambient draw already laid down. */
  predicate Accumulating(gl: Gl) {
    gl.blend && gl.blendFunc == Additive && !gl.depthMask && gl.depthFunc == Equal
  }

  /** The state between passes: nothing bound, opaque drawing, no clipping, depth test on. */
  predicate Rested(gl: Gl) {
    && gl.framebuffer == DefaultFramebuffer
    && gl.program == NoProgram
    && Opaque(gl)
    && !gl.clipDistance
    && gl.depthTest
  }

  /** Entering light accumulation: glEnable(GL_BLEND), glBlendFunc(ONE, ONE), glDepthMask(FALSE), glDepthFunc(EQUAL). */
  function BeginAccumulation(gl: Gl): (r: Gl)
    ensures Accumulating(r)
    ensures r.framebuffer == gl.framebuffer && r.program == gl.program
    ensures r.clipDistance == gl.clipDistance && r.depthTest == gl.depthTest
  {
    gl.(blend := true, blendFunc := Additive, depthMask := false, depthFunc := Equal)
  }

  /** Leaving light accumulation: glDepthFunc(LESS), glDepthMask(TRUE), glDisable(GL_BLEND). */
  function EndAccumulation(gl: Gl): (r: Gl)
    ensures Opaque(r)
    ensures r.framebuffer == gl.framebuffer && r.program == gl.program && r.blendFunc == gl.blendFunc
    ensures r.clipDistance == gl.clipDistance && r.depthTest == gl.depthTest
  {
    gl.(depthFunc := Less, depthMask := true, blend := false)
  }

  /** Leaving accumulation undoes entering it, except that the blend factors stay (ONE, ONE). */
  lemma EndUndoesBegin(gl: Gl)
    requires Opaque(gl)
    ensures EndAccumulation(BeginAccumulation(gl)) == gl.(blendFunc := Additive)
  {
  }
}
