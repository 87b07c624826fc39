# Forward renderer, bitmap packing and client input — a Dafny model

This project models the core of project-kilonova, a small OpenGL engine, in four parts.

1. **The newer forward renderer** (`src/renderer.cpp`, module `Renderer`). One `flush`
   renders a frame in this order:
   - the scene into the HDR screen framebuffer;
   - a water pass, when waters are queued. Each tile renders a reflection (only with the
     camera above the water), then a refraction, then draws its quad;
   - a sprite pass, when sprites are queued;
   - the screen composite into the window.

   Then every queue is cleared. One `render_scene` in the FORWARD lighting mode runs:
   - shadow capture for every directional, point and spot light, over every object and
     terrain;
   - forward lighting of every object, then every terrain. Each mesh gets one ambient
     draw, then one additive draw per light;
   - the skybox, drawn with the view stripped of its translation;
   - one debug cube per point light.
2. **The older renderer** (`project-kilonova/src/renderer.cpp`, module `Kilonova`). It has
   the same frame, with these differences:
   - no terrains, and no light markers;
   - spot lights are queued but never used;
   - one colour program and one forward program shade every object;
   - the lighting block is skipped when there are no objects;
   - the skybox is optional and set once;
   - the water quad is drawn without blending.
3. **The engine's bitmap** (`engine/src/core/bitmap.c`, module `Bitmap`):
   - the row-major colour grid behind `bitmap_get_pixel` and `bitmap_set_pixel`;
   - the byte packing `get_pixel` and `set_pixel` apply to 1-, 2-, 3- and 4-byte surface
     pixels, on either byte order.
4. **The game client's input rules** (`src/game/client/main.c`, module `ClientInput`):
   - the pitch clamp to [-89, 89] and the wheel clamp of the field of view to [1, 90];
   - F1 and F2 select the shader, Alt+F4 quits, Alt+Return and Tab toggle the window modes;
   - the movement speed: doubled with Shift, scaled by 0.71 on diagonals.

The renderers are observed through the GL state and a trace of events. The GL state (module
`GlState`) covers the bound framebuffer and program, blending, the depth mask and depth
function, the clip distance and the depth test. Every pass takes that state and returns the
next one, together with its events (module `Scene`). There are two kinds of event:
- a `SceneBegin` for each scene render, with its target, viewport size, camera and clip plane;
- a `Draw` for each draw call, with the full GL state it was issued under.

The properties are stated about these traces. `Count(trace, program, item, light)` counts
the draws of one item, lit by one light, issued with one program bound. Examples:
- every object is drawn exactly once per light that is lit;
- every light captures every mesh exactly once into its own shadow map;
- the skybox is drawn exactly once;
- a frame's main scene comes first, water quads come before sprite quads, and the screen
  quad is drawn once, last;
- the water pass hands the camera back unchanged.

Angles, speeds and heights are the sources' floats, modelled as reals. Pixels and colours
are unsigned integers. Shifts and masks are written as division and remainder by powers
of 256.

## Model

| member | source | states |
|---|---|---|
| GlState.BeginAccumulation | src/renderer.cpp:1012-1015 | entering light accumulation gives additive blending, no depth writes and depth func EQUAL, and keeps the bindings, the clipping and the depth test |
| GlState.EndAccumulation | src/renderer.cpp:1117-1119 | leaving accumulation restores opaque drawing (LESS, depth writes, no blend) and keeps the bindings |
| GlState.EndUndoesBegin | src/renderer.cpp:1012-1119 | from an opaque state, entering then leaving accumulation gives the state back, except that the blend factors stay (ONE, ONE) |
| Scene.Add | src/renderer.cpp:661-694 | each add_* appends the renderable to the end of its own queue and leaves the other six queues unchanged |
| Scene.AddAllKeepsOrder | src/renderer.cpp:661-694 | after any interleaving of submissions, each queue holds exactly that kind's submissions in call order |
| Scene.AddsOfDifferentKindsCommute | src/renderer.cpp:661-694 | submissions of different kinds can be made in either order with the same result |
| Scene.ZeroTranslation | src/renderer.cpp:1336-1341 | the skybox view zeroes exactly the entries [3][0], [3][1] and [3][2] of the camera view and keeps the other thirteen |
| Scene.ZeroTranslationIdempotent | src/renderer.cpp:1336-1341 | stripping the translation twice is the same as stripping it once |
| Scene.Each | src/renderer.cpp:1458-1469 | a per-entry draw loop issues exactly one draw per position, in queue order, under one state |
| Scene.EachCount | src/renderer.cpp:1458-1469 | that loop draws every listed position once and nothing else |
| Scene.LightAt | src/renderer.cpp:1016-1116 | every light of a mesh's accumulation is a queued light, never the base draw |
| Scene.LightSlot | src/renderer.cpp:1016-1116 | every queued light has a place in that order, and LightAt finds it there |
| Scene.LightAtInjective | src/renderer.cpp:1016-1116 | no light is accumulated twice |
| Scene.LightSweepAt | src/renderer.cpp:1016-1116 | the sweep's j-th draw is the mesh under the j-th light, with that light type's program. Directional lights come first, then point lights, then spot lights, each in queue order |
| Scene.LightSweepCount | src/renderer.cpp:1016-1116 | the sweep draws the mesh once per queued light and never unlit |
| Scene.Settled | src/renderer.cpp:1117-1119 | after a mesh's lighting, no program is bound, drawing is opaque and the blend factors stay (ONE, ONE) |
| Scene.LitMesh | src/renderer.cpp:981-1120 | one mesh gets a base draw followed by one draw per light, and then leaves the settled state |
| Scene.LitMeshAt | src/renderer.cpp:1012-1116 | each light draw is additive, with that light type's program |
| Scene.LitMeshCount | src/renderer.cpp:981-1120 | with the base program bound per mesh, the mesh gets exactly one base draw and one draw per light |
| Scene.LitMeshBaseCount | src/renderer.cpp:1122-1155 | the only unlit draw is the base draw. It uses the ambient program when the mesh binds one, and otherwise whatever program is bound |
| Scene.UnboundBaseCount | src/renderer.cpp:1127-1155 | without a per-mesh bind and starting with no program, every listed mesh gets exactly one base draw, with no program bound |
| Scene.SweepHasNoUnlit | src/renderer.cpp:1016-1116 | light accumulation never issues an unlit draw |
| Scene.LitMeshes | src/renderer.cpp:981-1120 | forward shading over a list, in queue order: every draw is into the pass's framebuffer with its clipping, every light draw is additive, every base draw is opaque, and afterwards the state is settled |
| Scene.LitMeshesCount | src/renderer.cpp:981-1120 | every listed mesh is drawn exactly once per light it is lit by, including its base draw |
| Scene.LitMeshesCountAny | src/renderer.cpp:981-1120 | no draw of forward shading uses a program other than its light type's |
| Scene.ShadowPasses | src/renderer.cpp:837-929 | shadow capture of one light kind: every draw is a mesh for one of those lights, into that light's own framebuffer, with its kind's depth program; afterwards nothing is bound |
| Scene.ShadowPassesCount | src/renderer.cpp:837-929 | each light captures every object and every terrain exactly once |
| Scene.CubeFaceAt | src/renderer.cpp:871-876 | each of the six shadow-cube faces looks along an axis, with an up vector on a different axis |
| Scene.FaceAlong | src/renderer.cpp:871-876 | every axis direction has a face looking along it, so the six faces see all around the light |
| Scene.FaceAlongCubeFace | src/renderer.cpp:871-876 | each face is the one found for its own direction |
| Scene.CubeFacesDistinct | src/renderer.cpp:871-876 | no two faces look the same way |
| Renderer.Create | src/renderer.cpp:232-287 | a new renderer has empty queues and the given reflection and refraction sizes; the BRDF program it renders the lookup table with is still bound, and the rest of the GL state is at rest |
| Renderer.SetReflectionSize | src/renderer.cpp:521-524 | only the stored reflection size changes |
| Renderer.SetRefractionSize | src/renderer.cpp:577-580 | only the stored refraction size changes |
| Renderer.Submit | src/renderer.cpp:661-694 | a submission appends to its own queue only and changes nothing else in the renderer |
| Renderer.Shadows | src/renderer.cpp:837-929 | the three shadow passes draw only depth captures of meshes into the lights' own maps, and leave the state they found apart from the framebuffer |
| Renderer.ShadowPassesLeaveGl | src/renderer.cpp:838-929 | one kind's capture leaves no program bound and the rest of the state as found |
| Renderer.ShadowsCount | src/renderer.cpp:837-929 | the shadow passes capture each queued mesh exactly once per queued light, using that kind's depth program, and issue no other draw |
| Renderer.ShadowPassesCountAny | src/renderer.cpp:837-929 | one kind's capture, counted over any program, mesh and light |
| Renderer.TerrainPass | src/renderer.cpp:1122-1265 | the terrain loop, corrected: every draw is a queued terrain under its light type's terrain program, into the current framebuffer |
| Renderer.TerrainPassCount | src/renderer.cpp:1122-1265 | corrected: every terrain gets one ambient draw and one draw per light, each with its terrain program |
| Renderer.TerrainPassAsWritten | src/renderer.cpp:1122-1155 | the terrain loop as written draws only queued terrains and ends settled when there is one; with no terrain it draws nothing and leaves the terrain ambient program bound |
| Renderer.TerrainPassAsWrittenBaseDraws | src/renderer.cpp:1122-1155 | as written, every terrain gets exactly one base draw, but only the first terrain's runs under the terrain ambient program; every later terrain's runs with no program bound |
| Renderer.TerrainPassAsWrittenSkipsSecondAmbient | src/renderer.cpp:1122-1155 | with two terrains, the second terrain's base draw is issued with no program bound and never with the terrain ambient program |
| Renderer.SecondTerrainBaseDraw | src/renderer.cpp:1127-1155 | as written, a later terrain's base draw runs under the program the previous terrain left, which is none |
| Renderer.SkyboxPass | src/renderer.cpp:1333-1350 | the skybox draws one cube into the target: skybox program, depth func LEQUAL during the draw and LESS after, view without translation |
| Renderer.SkyboxCount | src/renderer.cpp:1333-1350 | the skybox pass draws that cube once and nothing else |
| Renderer.MarkerPass | src/renderer.cpp:1352-1372 | one cube per point light, with the colour program and clipping on; a rested state is left as it was |
| Renderer.MarkerCount | src/renderer.cpp:1352-1372 | the marker pass draws one cube per point light and nothing else |
| Renderer.ForwardPass | src/renderer.cpp:975-1268 | forward lighting, with the corrected terrain loop, ends with framebuffer 0, no clipping and no program, and keeps opaque drawing |
| Renderer.ForwardDraws | src/renderer.cpp:975-1268 | every forward draw is an object or terrain drawn into the target |
| Renderer.ForwardCount | src/renderer.cpp:975-1268 | with the corrected terrain loop, every object and every terrain is drawn once per light it is lit by, with its own program family, and nothing else |
| Renderer.RenderScene | src/renderer.cpp:718-1375 | a scene render opens with its SceneBegin, and every later event is a draw into the target or a shadow capture. It ends with framebuffer 0, no clipping and no program, and a state at rest apart from its bound program ends at rest. Built on the corrected terrain loop |
| Renderer.PartsGl | src/renderer.cpp:718-1375 | the scene's passes leave no program and no clipping bound, whatever program was bound on entry |
| Renderer.SceneCount | src/renderer.cpp:718-1375 | a scene render's draws are exactly the shadow captures, the forward draws (corrected terrain loop), one skybox draw and one marker per point light |
| Renderer.SceneObjectDraws | src/renderer.cpp:981-1120 | in a scene render, every object gets exactly one ambient draw and one additive draw per directional, point and spot light |
| Renderer.SceneTerrainDraws | src/renderer.cpp:1127-1265 | likewise every terrain, with the terrain programs (corrected loop) |
| Renderer.SceneShadowDraws | src/renderer.cpp:837-929 | every queued light captures every object and every terrain exactly once |
| Renderer.SceneSkyboxDraw | src/renderer.cpp:1333-1350 | the skybox is drawn exactly once, with the view stripped of translation |
| Renderer.SceneMarkerDraws | src/renderer.cpp:1352-1372 | exactly one marker per point light, with the colour program |
| Renderer.Mirror | src/renderer.cpp:1395-1404 | the mirrored camera's height is reflected in the water plane, its pitch and roll are negated, and it is below the water exactly when the camera was above it |
| Renderer.MirrorIsInvolution | src/renderer.cpp:1395-1404 | mirroring twice gives the camera back |
| Renderer.RestoreUndoesMirror | src/renderer.cpp:1397-1409 | writing back the saved height, pitch and roll restores the camera exactly |
| Renderer.ReflectionPlane | src/renderer.cpp:1403 | the reflection keeps exactly what lies at or above the water |
| Renderer.RefractionPlane | src/renderer.cpp:1411-1416 | the refraction keeps exactly the side away from the camera, and flips when the camera is under the water |
| Renderer.AtSurface | src/renderer.cpp:1395-1416 | with the camera exactly at the surface there is no reflection, and the refraction plane is not flipped |
| Renderer.RenderWater | src/renderer.cpp:1388-1448 | one tile renders the reflection (camera above the water only) then the refraction, then draws one water quad lit by the first directional light. The quad is alpha-blended after a reflection, and from a rested state only then. The camera is handed back |
| Renderer.TileQuads | src/renderer.cpp:1388-1448 | one tile draws exactly one water quad, its own |
| Renderer.RenderWaters | src/renderer.cpp:1377-1449 | the water pass hands the camera back. Its scene renders are exactly each tile's reflection and refraction, in queue order, and it draws one quad per tile; every other event belongs to one of those scene renders |
| Renderer.AllWaterQuads | src/renderer.cpp:1388-1448 | the water pass's quads: one per tile, in queue order, each recording whether it had a reflection |
| Renderer.RenderSprites | src/renderer.cpp:1451-1471 | one sprite quad per queued sprite, in order, with the sprite program into the target; afterwards nothing is bound |
| Renderer.SpritesCount | src/renderer.cpp:1451-1471 | each queued sprite is drawn exactly once |
| Renderer.RenderScreen | src/renderer.cpp:1473-1488 | the composite draws one quad with the depth test off; afterwards the depth test is back on and framebuffer 0 is bound |
| Renderer.ScreenIgnoresBindings | src/renderer.cpp:1476-1487 | the composite sets the framebuffer, program and depth test itself, so whatever was bound before changes neither its draw nor the state it leaves |
| Renderer.MainScene | src/renderer.cpp:698 | the main scene is rendered from the eye into the screen framebuffer, at the render size, with the zero clip plane; it draws no water, sprite or screen quad |
| Renderer.WaterPhase | src/renderer.cpp:699-702 | the water pass runs only when waters are queued and hands the camera back; it draws one quad per queued tile, in queue order, and no sprite or screen quad |
| Renderer.SpritePhase | src/renderer.cpp:703-706 | the sprite pass runs only when sprites are queued and draws only quads of queued sprites |
| Renderer.Flush | src/renderer.cpp:696-716 | after a flush every queue is empty and the sizes are kept; the camera is handed back, and a state at rest apart from its bound program ends at rest |
| Renderer.FirstFlushRests | src/renderer.cpp:718-722 | the first frame after construction leaves the GL state at rest: the scene render's uniform setup replaces the program the constructor left bound |
| Renderer.FlushOrder | src/renderer.cpp:696-716 | a flush's events open with the main scene render's; every water and sprite quad comes after them, every water quad before every sprite quad, and the screen quad is drawn exactly once, last |
| Renderer.FlushQuads | src/renderer.cpp:696-716 | a flush draws one water quad per queued tile, in queue order, and none when no waters are queued; every sprite quad is a queued sprite's, so none when no sprites are queued |
| Renderer.FlushFrameEnds | src/renderer.cpp:696-716 | a frame opens with the main scene from the eye into the screen framebuffer, and ends with the composite into the window |
| Kilonova.Create | project-kilonova/src/renderer.cpp:16-26 | the reflection and refraction sizes start as the render size, the shadow size is stored, the queues are empty and no skybox is set |
| Kilonova.Submit | project-kilonova/src/renderer.cpp:614-647 | each add_* appends to its own queue only |
| Kilonova.SetSkybox | project-kilonova/src/renderer.cpp:634-637 | set_skybox replaces the skybox and changes nothing else |
| Kilonova.Shadows | project-kilonova/src/renderer.cpp:701-774 | the shadow passes draw only depth captures into the lights' own maps. With no program bound on entry, they leave the state as they found it, apart from the framebuffer |
| Kilonova.ShadowsLeaveGl | project-kilonova/src/renderer.cpp:701-774 | with no program bound on entry, the shadow passes leave the state as they found it, apart from the framebuffer |
| Kilonova.ShadowsCount | project-kilonova/src/renderer.cpp:701-774 | every object is captured once per directional light and once per point light; spot lights capture nothing |
| Kilonova.Lighting | project-kilonova/src/renderer.cpp:843-962 | the lighting block runs only when there are objects. It then leaves opaque drawing, no program, no clipping and framebuffer 0 |
| Kilonova.LightingDraws | project-kilonova/src/renderer.cpp:843-962 | the lighting block draws only queued objects, into the target |
| Kilonova.LightingCount | project-kilonova/src/renderer.cpp:843-962 | every object gets one black base draw with the colour program and one forward draw per directional and point light |
| Kilonova.LightingState | project-kilonova/src/renderer.cpp:849-957 | light draws are additive with the forward program, and base draws use the colour program and are opaque |
| Kilonova.Sky | project-kilonova/src/renderer.cpp:1056-1088 | with no skybox set, nothing is drawn and only framebuffer 0 is bound |
| Kilonova.SkyDraws | project-kilonova/src/renderer.cpp:1056-1088 | the sky pass draws only the skybox cube, into the target |
| Kilonova.SkyCount | project-kilonova/src/renderer.cpp:1056-1088 | the skybox is drawn once exactly when one is set |
| Kilonova.RenderScene | project-kilonova/src/renderer.cpp:685-1089 | a scene render opens with its SceneBegin, and every later event is a draw into the target or a shadow capture. It ends with framebuffer 0 and keeps a rested state rested |
| Kilonova.PartsGl | project-kilonova/src/renderer.cpp:685-1089 | a scene render ends with framebuffer 0 bound |
| Kilonova.PartsDraws | project-kilonova/src/renderer.cpp:685-1089 | its passes draw shadow captures, objects into the target and the skybox into the target |
| Kilonova.SceneCount | project-kilonova/src/renderer.cpp:685-1089 | a scene render's draws are exactly the captures, the object draws and the optional skybox |
| Kilonova.SceneObjectDraws | project-kilonova/src/renderer.cpp:849-957 | every object gets exactly one colour-program base draw, and one forward draw per directional and point light |
| Kilonova.SpotLightsIgnored | project-kilonova/src/renderer.cpp:701-962 | no draw of a scene render is lit by a spot light |
| Kilonova.SceneShadowDraws | project-kilonova/src/renderer.cpp:701-732 | every directional light captures every object exactly once with the depth program |
| Kilonova.ScenePointShadowDraws | project-kilonova/src/renderer.cpp:734-774 | every point light captures every object exactly once with the cube-map depth program |
| Kilonova.SceneSkyboxDraw | project-kilonova/src/renderer.cpp:1061-1086 | the skybox is drawn exactly once when set, never otherwise |
| Kilonova.NoObjectsOnlySky | project-kilonova/src/renderer.cpp:776 | with no objects, nothing but the skybox is drawn |
| Kilonova.Mirror | project-kilonova/src/renderer.cpp:1116-1132 | the mirrored camera's height is reflected and its pitch negated; its roll is left alone |
| Kilonova.RestoreUndoesMirror | project-kilonova/src/renderer.cpp:1116-1132 | restoring the saved height and pitch gives the camera back, and the roll was never touched |
| Kilonova.RenderWater | project-kilonova/src/renderer.cpp:1110-1169 | one tile: the reflection when above the water, then the refraction, both at the render size. Then one water quad, unblended from a rested state, recording whether a reflection was rendered; the camera is handed back |
| Kilonova.RenderWaters | project-kilonova/src/renderer.cpp:1091-1170 | the water pass hands the camera back. Its scene renders are exactly each tile's reflection and refraction, in queue order, and it draws one quad per tile; every other event belongs to one of those scene renders |
| Kilonova.RenderScreen | project-kilonova/src/renderer.cpp:1203-1223 | the composite draws one quad with the depth test off; the depth test is back on afterwards and the target stays bound |
| Kilonova.ScreenIgnoresBindings | project-kilonova/src/renderer.cpp:1205-1222 | the composite sets the framebuffer, program and depth test itself, so whatever was bound before changes neither its draw nor the state it leaves |
| Kilonova.Cleared | project-kilonova/src/renderer.cpp:677-682 | draw clears the six queues this renderer owns |
| Kilonova.MainScene | project-kilonova/src/renderer.cpp:659 | the main scene is rendered from the camera into the screen framebuffer, at the render size, with the zero clip plane; it draws no water, sprite or screen quad |
| Kilonova.WaterPhase | project-kilonova/src/renderer.cpp:662-665 | the water pass runs only when waters are queued and hands the camera back; it draws one quad per queued tile, in queue order, and no sprite or screen quad |
| Kilonova.DrawFrame | project-kilonova/src/renderer.cpp:649-683 | with no camera, nothing happens. Otherwise the queues are cleared, the skybox and sizes are kept, and a rested state stays rested |
| Kilonova.DrawOrder | project-kilonova/src/renderer.cpp:649-683 | draw's events open with the main scene render's; every water and sprite quad comes after them, every water quad before every sprite quad, and the screen quad is drawn exactly once, last |
| Kilonova.DrawQuads | project-kilonova/src/renderer.cpp:649-683 | draw draws one water quad per queued tile, in queue order, and none when no waters are queued; every sprite quad is a queued sprite's, so none when no sprites are queued |
| Kilonova.DrawFrameEnds | project-kilonova/src/renderer.cpp:649-683 | a frame opens with the main scene and ends with the composite into the window |
| Bitmap.IndexInBounds | engine/src/core/bitmap.c:54 | every in-bounds (x, y) indexes inside the width*height pixel array |
| Bitmap.IndexInjective | engine/src/core/bitmap.c:54 | two in-bounds coordinates share a storage index iff they are equal |
| Bitmap.Set | engine/src/core/bitmap.c:57-60 | after bitmap_set_pixel, (x, y) reads the new colour and every other pixel reads as before |
| Bitmap.SetGetUnchanged | engine/src/core/bitmap.c:52-60 | writing back the colour just read leaves the bitmap unchanged |
| Bitmap.SetSetOverwrites | engine/src/core/bitmap.c:57-60 | a second write to a pixel hides the first |
| Bitmap.Assemble | engine/src/core/bitmap.c:75-99 | an n-byte pixel's bytes make a colour below 256 to the n, in the machine's byte order |
| Bitmap.ReadPixel | engine/src/core/bitmap.c:68-107 | get_pixel reads a colour that fits the pixel width; an unhandled width reads 0 |
| Bitmap.WritePixel | engine/src/core/bitmap.c:109-147 | set_pixel keeps the surface's shape and touches only the pixel's own bytes; an unhandled width writes nothing |
| Bitmap.WrittenBytes | engine/src/core/bitmap.c:116-145 | the pixel's bytes after a write are the colour's low bytes, in the machine's byte order |
| Bitmap.AssembleBytes | engine/src/core/bitmap.c:75-145 | decoding an encoded pixel yields the colour truncated to the pixel width |
| Bitmap.BytesAssemble | engine/src/core/bitmap.c:75-145 | encoding a decoded pixel yields the bytes it came from |
| Bitmap.BigEndianReversed | engine/src/core/bitmap.c:89-93 | on a big-endian machine the pixel's bytes are the little-endian bytes reversed |
| Bitmap.ReadAfterWrite | engine/src/core/bitmap.c:68-147 | reading a pixel back after writing it yields the colour truncated to the pixel width, or 0 for an unhandled width |
| Bitmap.WriteAfterRead | engine/src/core/bitmap.c:68-147 | writing back the colour just read leaves the surface unchanged |
| Bitmap.WriteKeepsOthers | engine/src/core/bitmap.c:109-147 | writing a pixel leaves every pixel whose bytes it does not overlap reading as before |
| ClientInput.ClampPitch | src/game/client/main.c:546-553 | the pitch ends in [-89, 89], is unchanged inside that range, and is clamped to the nearer bound outside it |
| ClientInput.WheelFov | src/game/client/main.c:563-577 | the field of view ends in [1, 90]. Inside the range the wheel moves it by exactly its amount when that stays in range, and a move to or past a bound ends on that bound; outside the range it snaps to the nearer bound |
| ClientInput.WheelMonotone | src/game/client/main.c:565-576 | inside [1, 90], scrolling further up never widens the view |
| ClientInput.WheelUndone | src/game/client/main.c:565-576 | a scroll that stays strictly inside the range is undone by the opposite scroll |
| ClientInput.HandleEvent | src/game/client/main.c:486-599 | one event: motion subtracts a tenth of the vertical motion from the pitch and clamps it, and adds a tenth of the horizontal motion to the yaw; the wheel sets the field of view by the wheel rule; F1 and F2 pick the shader; quit or Alt+F4 quits; Alt+Return toggles fullscreen; Tab toggles relative mouse; a resize records the new size; nothing else changes |
| ClientInput.TogglesUndo | src/game/client/main.c:510-529 | Tab twice, or Alt+Return twice, leaves the client as it was |
| ClientInput.SettingsSettle | src/game/client/main.c:486-599 | F1, F2, Alt+F4, other keys, quit and resize set their effect once: handling the same event again changes nothing more |
| ClientInput.MotionUndone | src/game/client/main.c:541-553 | a mouse motion the pitch clamp does not reach is undone by the opposite motion |
| ClientInput.HandleEvents | src/game/client/main.c:484-600 | after the event queue: the shader is the last one F1 or F2 picked; the client quits iff some event asked to; a motion or wheel event leaves the pitch or field of view in range, and in-range angles stay in range |
| ClientInput.Speed | src/game/client/main.c:602-615 | the speed of a frame of non-negative length is non-negative |
| ClientInput.SpeedFactors | src/game/client/main.c:602-615 | the speed is 5 per second, times 2 with Shift, times 0.71 exactly when a forward-or-back key is held together with a sideways key |
| ClientInput.ShiftDoubles | src/game/client/main.c:604-607 | holding Shift doubles the speed, whatever else is held |
| ClientInput.Displacement | src/game/client/main.c:617-649 | W and S cancel, A and D cancel; a lone W or S moves one speed forward or back, a lone D or A one speed right or left |
| ClientInput.MirroredMovesBack | src/game/client/main.c:602-649 | swapping W with S and A with D keeps the speed and reverses the displacement |

## Left out

- GL resources are not modelled: VAOs, VBOs, textures, framebuffer creation and completeness checks, and destructors. Textures enter the model only as the "reflection bound" and "environment bound" flags.
- Viewports are modelled only as the size recorded in each scene render's `SceneBegin`. The shadow-map viewports, the sprite and screen viewports and the glClear calls are left out.
- Uniform uploads, projection and view matrices, and the lookAt maths are left out. `viewOf` stands for camera::calc_view and is a parameter.
- The COLOR, TEXTURE and DEFERRED lighting modes are left out. Both sources compile FORWARD.
- Renderer.Create: takes the render size as input. It does not model `(int)(display_width * render_scale)`, because that is a float product truncated to int.
- Renderer.ForwardPass: is built on the corrected terrain loop of the Findings row, not the loop as written. As written, with no terrain queued, the terrain ambient program bound at src/renderer.cpp:1122 is still bound when the forward pass ends, so its "no program bound afterwards" holds of the corrected loop only. The skybox pass binds and unbinds its own program (src/renderer.cpp:1342-1349), so a scene render ends with no program either way.
- Renderer.ForwardCount: counts the terrain draws of the corrected loop. As written, only the first terrain's base draw uses the terrain ambient program; Renderer.TerrainPassAsWrittenBaseDraws states what the loop as written does.
- Renderer.SceneCount: counts the terrain draws of the corrected loop, as Renderer.ForwardCount does.
- Renderer.SceneTerrainDraws: states the terrain draws of the corrected loop, as Renderer.ForwardCount does.
- Renderer.RenderScene: its trace contains the corrected loop's terrain draws. Which program a terrain draw runs under does not enter the rest of its contract.
- Renderer.MainScene: flush calls render_scene without a clip plane. The default argument is in renderer.hpp, which is not part of this model, so the main scene uses the zero plane that the older renderer passes explicitly.
- Renderer.RenderWaters: requires a directional light whenever waters are queued. The source reads `directional_lights[0]` without checking, and an empty queue there is undefined behaviour, not a modelled outcome.
- Kilonova.Submit: excludes terrains, because this renderer has no add_terrain. Its terrain queue stays empty.
- Kilonova.Create: no skybox is set. The member's initial value is in a header that is not part of this model.
- Shadow-map and cube-map sizes, the `render_scale` of the older renderer, and its geometry framebuffer are left out.
- The network sends in the client (chat and mouse data, under `#if NETWORK`) are left out. So are window titles, the window module's own calls and the GL viewport on resize. ClientInput.HandleEvent records a resize as the new width and height only.
- ClientInput.Displacement: gives the movement in the camera's own frame, forward and sideways. The cross product, normalisation and vector addition with `camera->front` and `camera->up` are left out.
- ClientInput.HandleEvent: does not model the recomputation of `camera->front` from yaw and pitch (trigonometry on floats).
- Float rounding is not modelled: the 0.1 mouse factor, the 0.71 diagonal factor and the wheel subtraction are exact real arithmetic.
- bitmap_create is left out: it loads an image file (I/O), and its copy loop reads the surface after `SDL_FreeSurface`. bitmap_destroy only frees memory.
- Bitmap.Get: carries no contract of its own. What it reads is stated through Bitmap.Set, Bitmap.SetGetUnchanged and Bitmap.SetSetOverwrites.
- The 2- and 4-byte pixel reads are unaligned pointer casts in C. They are modelled as reads in the machine's byte order, which is what they do on the platforms SDL supports.

## Findings

| source | as written | input that shows it | evidently intended | confidence | as-written member | corrected member |
|---|---|---|---|---|---|---|
| src/renderer.cpp:1122-1155 | The terrain ambient program is bound once before the terrain loop but unbound inside it, after each terrain's base draw. | Two queued terrains: the second terrain's base draw is issued with no program bound. With no terrain queued, the ambient program stays bound after the loop. | Each terrain binds the terrain ambient program for its own base draw, as the object loop does for objects. | medium, not executed | Renderer.TerrainPassAsWrittenSkipsSecondAmbient | Renderer.TerrainPassCount |
