# DX11-foolery renderer core, modelled in Dafny

This project models the Direct3D 11 renderer of DX11-foolery, the class
`D3DRenderer`, together with the two transform records it draws, `Cube::Data`
and `Sprite::Data`, and the text record `Font::String`.

**Set-up.**
- `init` runs `deviceSetup` and then `shaderSetup`.
- `deviceSetup` tries the hardware, WARP and software drivers in that order.
  It then makes the render target view through the back-buffer texture,
  followed by the blend state, the depth texture and its view, the viewport
  and the sampler.
- `shaderSetup` compiles and creates five shaders and two input layouts.
- `populateVRAM` creates seven buffers and three textures.
- Every creating call is wrapped in `HR(...)`, which throws on a failing
  HRESULT. A throw stops the rest of the method.

**Per frame.**
- `clrScr` clears the targets.
- `renderCube` writes each cube's world matrix into the model constant
  buffer and draws the 36 indices.
- `renderSprites` uploads one 3x3 instance matrix per sprite and makes one
  instanced draw.
- `renderString` lays out every upper-case letter as a textured quad and
  draws them all.
- `present` shows the frame.

**Tear-down.** `cleanUp` retires every COM pointer. `retire` releases a
non-null pointer once and nulls it.

**How it is modelled.**
- The renderer is a class, `Renderer.D3DRenderer`, whose methods update its
  fields in place.
- Each set-up method is proved equal to a pure function on a `Setup.Run`.
  A run is the method's status (returned, or threw an HRESULT), the COM
  pointers, the messages shown to the user, and the buffer descriptors.
- Module `SetupLemmas` proves what those runs do:
  - which HRESULT is thrown;
  - which pointers are live afterwards;
  - that nothing else changes;
  - that no handle is ever released twice.
- COM pointers are a `Resources.Store`: a slot per pointer field or local
  pointer, a log of every `Release` call, and a counter of issued handles.
- The driver and the compiler are a `Setup.Platform`, a record of functions
  from a call to its HRESULT.
- What the per-frame methods hand to the device context is appended to a
  trace of `Frame.Event`s.

**Three behaviours of the code that are easy to miss, and that the model follows:**
- The cube world matrix is `transpose((scale * rotate) * translate)`
  (src/cube.cpp:15-17).
- A failing set-up call does not release the objects created before it. Only
  the local back-buffer texture and the local shader and error blobs are
  retired on the throwing paths (src/d3drenderer.cpp:86-93, 180-190, 210-213).
- When no driver yields a device, the HRESULT thrown is the software
  driver's, the last one tried, not the initial `E_FAIL`
  (src/d3drenderer.cpp:61-81).

## Model

| member | source | states |
|---|---|---|
| Renderer.D3DRenderer.constructor | src/d3drenderer.h:59-65 | the view size is the window's size; every pointer is null; the driver type is NULL; the viewport, buffers, CPU-side lists, trace and messages are empty |
| Renderer.D3DRenderer.Retire | src/d3drenderer.h:77-83 | a null pointer is left alone; a live one is released once (appended to the release log) and nulled |
| Renderer.D3DRenderer.Create | src/d3drenderer.cpp:21 | HR(call): on success the pointer receives a new handle, on failure the HRESULT is thrown and nothing else changes; it returns Done exactly when the call succeeds |
| Renderer.D3DRenderer.CreateBuffer | src/d3drenderer.cpp:366 | HR(CreateBuffer): like Create, and on success records the buffer's descriptor |
| Renderer.D3DRenderer.Init | src/d3drenderer.cpp:23-26 | the new state is InitRun of the old one (deviceSetup, then shaderSetup unless deviceSetup threw); the driver type is the first that yields a device; the viewport is set exactly when deviceSetup reaches it |
| Renderer.D3DRenderer.DeviceSetup | src/d3drenderer.cpp:28-153 | the new state is DeviceRun of the old one; the driver type is the first of hardware, WARP, software whose device creation succeeds, unchanged if none does; the viewport is (0, 0, width, height, 0, 1) exactly when a device was made and the five creations before the viewport succeed |
| Renderer.D3DRenderer.DeviceObjects | src/d3drenderer.cpp:95-152 | the blend state, depth texture, depth view and sampler are created in order and the first failure is thrown; the viewport is set exactly when the first three succeed |
| Renderer.D3DRenderer.CompileShader | src/d3drenderer.cpp:155-194 | the new state is CompileRun of the compiler's answer; the returned blob is the live shader blob on success and null when the compile throws |
| Renderer.D3DRenderer.ShaderStage | src/d3drenderer.cpp:197-243 | one shaderSetup block equals StageRun: compile, create the shader, then the input layout if the block has one; the blob is retired before a rethrow and after the block |
| Renderer.D3DRenderer.ShaderSetup | src/d3drenderer.cpp:196-339 | the new state is ShaderRun: the five blocks in source order, and the first throw stops the rest |
| Renderer.D3DRenderer.PopulateVRAM | src/d3drenderer.cpp:341-522 | the new state is PopulateRun: the seven buffers and three textures in source order, with the descriptors given; the first throw stops the rest |
| Renderer.D3DRenderer.ClrScr | src/d3drenderer.cpp:524-527 | the trace gains a clear of the render target to the colour, then a clear of the depth buffer to 1.0 |
| Renderer.D3DRenderer.RenderCube | src/d3drenderer.cpp:529-569 | without a context nothing happens; otherwise (the model buffer being live) the cube pipeline is bound, then for each cube in order the model buffer is mapped, written with that cube's world matrix and unmapped, and 36 indices are drawn |
| Renderer.D3DRenderer.DrawCubes | src/d3drenderer.cpp:535-568 | renderCube past its context check: one Bind of the cube pipeline, then for each cube in order a map, a write of exactly that cube's world matrix, an unmap and a 36-index draw |
| Renderer.D3DRenderer.RenderSprites | src/d3drenderer.cpp:571-607 | without a context nothing changes; otherwise (the instance buffer being live and large enough) the instance list is exactly the sprites' world matrices in order, uploaded whole, and one instanced draw of 6 vertices is made per sprite |
| Renderer.D3DRenderer.RenderString | src/d3drenderer.cpp:609-675 | without a context nothing changes; otherwise (the font buffer being live and large enough) the vertex list is exactly Layout(strings), uploaded whole and drawn with one draw of all its vertices |
| Renderer.D3DRenderer.Present | src/d3drenderer.cpp:677-679 | the trace gains one Present with sync interval 1 and no flags |
| Renderer.D3DRenderer.CleanUp | src/d3drenderer.cpp:681-707 | the pointers are RetireAll of the old ones over the 25 fields in source order |
| Renderer.CubeWorlds | src/d3drenderer.cpp:559-560 | one world matrix per cube, in order: entry k is cube k's getWorldMatrix |
| Renderer.SpriteWorlds | src/d3drenderer.cpp:577-578 | one instance matrix per sprite, in order: entry k is sprite k's getWorldMatrix |
| Resources.CleanupOrderComplete | src/d3drenderer.cpp:682-706 | cleanUp names every pointer field of the class, each exactly once |
| Resources.CleanupPositions | src/d3drenderer.cpp:682-706 | the position of each field in the cleanUp order |
| Resources.AllSlotsComplete | src/d3drenderer.h:21-57 | every pointer field and every local pointer has a slot |
| Resources.MemberSlots | src/d3drenderer.cpp:682-706 | the slots of a list of fields are those fields, in the same order |
| Resources.Initial | src/d3drenderer.h:21-57 | every pointer starts null, nothing has been released, and no handle has been issued |
| Resources.RetireNull | src/d3drenderer.h:78-79 | retiring a null pointer changes nothing |
| Resources.RetireHeld | src/d3drenderer.h:81-82 | retiring a live pointer nulls it, releases its handle exactly once (the handle was not released before), keeps the invariant and leaves every other pointer alone |
| Resources.RetireIdempotent | src/d3drenderer.h:77-83 | retiring twice is retiring once |
| Resources.RetiredValid | src/d3drenderer.h:77-83 | retire keeps the invariant: no handle is released twice or held twice |
| Resources.AcquiredValid | src/d3drenderer.cpp:21 | a creating call keeps the invariant and stores a handle that was never released |
| Resources.RetireAllStep | src/d3drenderer.cpp:682-706 | retiring from position k on is retiring slot k, then the rest |
| Resources.RetireAllEffect | src/d3drenderer.cpp:682-706 | retiring distinct slots nulls them all and leaves the others alone; the release log grows by exactly the handles they held, in order; the invariant holds |
| Resources.RetireAllValid | src/d3drenderer.cpp:682-706 | a sequence of retires keeps the invariant |
| Resources.RetireAllHeld | src/d3drenderer.cpp:682-706 | a sequence of retires over distinct slots nulls exactly those slots and logs exactly their handles |
| Resources.HeldInUnaffected | src/d3drenderer.cpp:682-706 | retiring a slot outside the list leaves the list's handles alone |
| Resources.RetireAllOfNull | src/d3drenderer.cpp:682-706 | retiring slots that are all null changes nothing |
| Resources.RetireAllIdempotent | src/d3drenderer.cpp:681-707 | a second cleanUp after the first changes nothing |
| Resources.CleanupSlotsSpec | src/d3drenderer.cpp:682-706 | cleanUp's slots are distinct, cover every field, and are all member pointers |
| Resources.MemberSlotsCover | src/d3drenderer.cpp:682-706 | a field list naming every field gives slots covering every field |
| Resources.RetireViewsAll | src/d3drenderer.cpp:682-686 | the first five retires of cleanUp are RetireAll over the views, sampler and blend state |
| Resources.RetireBuffersAll | src/d3drenderer.cpp:687-693 | the next seven retires are RetireAll over the buffers |
| Resources.RetireShadersAll | src/d3drenderer.cpp:694-700 | the next seven retires are RetireAll over the layouts and shaders |
| Resources.RetireDeviceAll | src/d3drenderer.cpp:701-706 | the last six retires are RetireAll over the depth objects, render target, swap chain, context and device |
| Resources.CleanupInOrderRetiresAll | src/d3drenderer.cpp:681-707 | the 25 retires in source order are RetireAll over the cleanUp order |
| Resources.MemberSlotsAppend | src/d3drenderer.cpp:682-706 | the slots of two field lists joined are their slots joined |
| Resources.RetireAllAppend | src/d3drenderer.cpp:682-706 | retiring two lists joined is retiring the first, then the second |
| Resources.CleanupEffect | src/d3drenderer.cpp:681-707 | after cleanUp every pointer field is null, the local pointers are untouched, the release log grows by exactly the handles the fields held, and no handle was released twice |
| Resources.RetireAllFields | src/d3drenderer.cpp:681-707 | any retire sequence that names every field once nulls every field, keeps the locals, and logs exactly the handles held |
| Resources.CleanupOfInitial | src/d3drenderer.cpp:681-707 | cleanUp on a renderer that never set up releases nothing |
| Resources.GrowsRefl | src/d3drenderer.cpp:21 | a state grows from itself |
| Resources.GrowsTrans | src/d3drenderer.cpp:21 | growth composes across successive calls |
| Resources.GrowsWiden | src/d3drenderer.cpp:21 | growth within some slots is growth within more |
| Resources.AcquiredGrows | src/d3drenderer.cpp:21 | a creating call on a permitted slot is growth: the new handle is newly issued |
| Resources.RetiredGrows | src/d3drenderer.cpp:90 | retiring a local that was null at the start only releases a handle issued since |
| Setup.StepsResults | src/d3drenderer.cpp:109-152 | one HRESULT per creating step, in order, each the answer to that step's call |
| Setup.FirstSuccessFrom | src/d3drenderer.cpp:62-80 | the driver search from position k: driver k if it succeeds, otherwise the search from k + 1 |
| Setup.FirstSuccessSpec | src/d3drenderer.cpp:62-80 | no driver is found exactly when every driver fails; a driver that is found succeeded, and every driver tried before it failed |
| Setup.StaticBuffersFitDraws | src/d3drenderer.cpp:356-357 | the quad buffer holds exactly the 6 vertices of each instanced draw; the index buffer holds the 36 indices DrawIndexed reads, each naming one of the 24 vertices; the model buffer holds one matrix |
| SetupLemmas.OutcomeSpec | src/d3drenderer.cpp:21 | HR calls in order return exactly when every call succeeds; a throw carries the first failing HRESULT |
| SetupLemmas.OutcomeAppend | src/d3drenderer.cpp:21 | two runs of HR calls in sequence: the first throw wins |
| SetupLemmas.OutcomeFrom | src/d3drenderer.cpp:21 | the outcome from position k on: a throw of k's HRESULT if it fails, otherwise the outcome from k + 1 |
| SetupLemmas.CreateKeeps | src/d3drenderer.cpp:21 | a creating call keeps the invariant and is growth within any permitted set holding its slot |
| SetupLemmas.CreateEffect | src/d3drenderer.cpp:21 | a creating call does nothing after a throw; otherwise its status is its HRESULT's outcome; on failure the pointers are unchanged, on success its pointer is live; no other pointer, message or descriptor changes |
| SetupLemmas.ReleaseKeeps | src/d3drenderer.cpp:93 | retiring a local that was null at the start keeps the invariant and is growth |
| SetupLemmas.CompileKeeps | src/d3drenderer.cpp:155-194 | compileShader keeps the invariant and touches only the two blob slots, handing out newly issued handles only |
| SetupLemmas.CompileStatus | src/d3drenderer.cpp:165-190 | compileShader throws exactly the compiler's failing HRESULT; it shouts the error text exactly when the compile fails with an error blob |
| SetupLemmas.CompileLive | src/d3drenderer.cpp:180-193 | after compileShader the error blob is null; the shader blob is live exactly when the compile succeeded and produced code; nothing outside the blobs changes |
| SetupLemmas.CompileReleases | src/d3drenderer.cpp:180-192 | compileShader releases the error blob whenever there is one, and the shader blob exactly when the compile fails after producing code |
| SetupLemmas.StepEffect | src/d3drenderer.cpp:366-520 | one creating step: its status, its pointer, and its recorded descriptor; nothing else changes |
| SetupLemmas.StepsStatus | src/d3drenderer.cpp:341-522 | steps in order throw the first failing HRESULT, or none; nothing runs after an earlier throw |
| SetupLemmas.StepsRunCons | src/d3drenderer.cpp:341-522 | a sequence of steps runs its first step, then the rest |
| SetupLemmas.StepsHalted | src/d3drenderer.cpp:21 | after a throw no later step changes anything |
| SetupLemmas.StepsKeeps | src/d3drenderer.cpp:341-522 | creating steps keep the invariant and are growth within their slots |
| SetupLemmas.StepsFrame | src/d3drenderer.cpp:341-522 | steps change no pointer and no descriptor outside the fields they create |
| SetupLemmas.StepsLocals | src/d3drenderer.cpp:341-522 | steps leave the local pointers null |
| SetupLemmas.StepsKeepHeld | src/d3drenderer.cpp:341-522 | steps never null a live pointer |
| SetupLemmas.StepsLive | src/d3drenderer.cpp:341-522 | when the steps return, every field they create is live |
| SetupLemmas.StepsSlotsCons | src/d3drenderer.cpp:341-522 | the slots of a sequence of steps are the first step's slot and the slots of the rest |
| SetupLemmas.StepsSlotsFrom | src/d3drenderer.cpp:341-522 | the slots from step k on are step k's slot and the slots after it |
| SetupLemmas.StepsBuffers | src/d3drenderer.cpp:341-522 | when steps over distinct fields return, each buffer holds the descriptor it was created with |
| SetupLemmas.StageKeeps | src/d3drenderer.cpp:197-243 | a shaderSetup block keeps the invariant and touches only its blobs, shader and layout |
| SetupLemmas.StageStatus | src/d3drenderer.cpp:197-243 | a block throws the first failing HRESULT of compile, shader and layout; it shouts at most once, only when the compile fails; descriptors are untouched |
| SetupLemmas.StageLive | src/d3drenderer.cpp:197-243 | after a block the blobs are null; when it returns its shader and layout are live; nothing outside its slots changes |
| SetupLemmas.StageMade | src/d3drenderer.cpp:197-243 | after a block the blobs are null, and when it returns its shader and layout are live |
| SetupLemmas.StageFrame | src/d3drenderer.cpp:197-243 | a block changes no pointer outside its blobs, shader and layout |
| SetupLemmas.StageLocals | src/d3drenderer.cpp:197-243 | a block leaves every local pointer null |
| SetupLemmas.StageHeld | src/d3drenderer.cpp:197-243 | when a block returns, each field it creates is live |
| SetupLemmas.StageKeepsHeld | src/d3drenderer.cpp:197-243 | a block never nulls a live pointer field |
| SetupLemmas.StagesStatus | src/d3drenderer.cpp:196-339 | blocks in order throw the first failing HRESULT of all their calls, shout at most once, and shout nothing when they return |
| SetupLemmas.StagesRunFrom | src/d3drenderer.cpp:196-339 | blocks from k on are block k, then the blocks after it |
| SetupLemmas.StagesKeeps | src/d3drenderer.cpp:196-339 | shaderSetup keeps the invariant and is growth within its slots |
| SetupLemmas.StagesFrame | src/d3drenderer.cpp:196-339 | shaderSetup leaves the locals null and no pointer outside its slots changes |
| SetupLemmas.StagesKeepHeld | src/d3drenderer.cpp:196-339 | shaderSetup never nulls a live pointer field |
| SetupLemmas.StagesLive | src/d3drenderer.cpp:196-339 | when shaderSetup returns, every shader and input layout it creates is live |
| SetupLemmas.StagesSlotsFrom | src/d3drenderer.cpp:196-339 | the slots of blocks from k on are block k's and those after it |
| SetupLemmas.ShaderSlotsAre | src/d3drenderer.cpp:196-339 | shaderSetup touches exactly the two blobs, the five shaders and the two layouts |
| SetupLemmas.DeviceStepsSlots | src/d3drenderer.cpp:109-152 | the creations after the render target view touch exactly the blend state, depth texture, depth view and sampler |
| SetupLemmas.DeviceKeeps | src/d3drenderer.cpp:28-153 | deviceSetup keeps the invariant and is growth within its nine slots |
| SetupLemmas.DeviceStatus | src/d3drenderer.cpp:28-153 | if no driver yields a device, deviceSetup throws the software driver's HRESULT and changes no pointer; otherwise it throws the first failing HRESULT of its later creations, or none |
| SetupLemmas.DeviceLocals | src/d3drenderer.cpp:83-93 | deviceSetup leaves the back-buffer texture null on every path |
| SetupLemmas.DeviceFrame | src/d3drenderer.cpp:28-153 | deviceSetup changes no pointer outside its nine slots |
| SetupLemmas.DeviceCore | src/d3drenderer.cpp:62-80 | once a driver yields a device, the swap chain, device and context are live even if a later call throws |
| SetupLemmas.DeviceLive | src/d3drenderer.cpp:28-153 | when deviceSetup returns, the swap chain, device, context, render target, blend state, depth texture, depth view and sampler are all live |
| SetupLemmas.InitKeeps | src/d3drenderer.cpp:23-26 | init keeps the invariant, leaves the locals null and is growth within the device and shader slots |
| SetupLemmas.InitStatus | src/d3drenderer.cpp:23-26 | init returns exactly when a driver yields a device and every later device and shader call succeeds |
| SetupLemmas.InitKeepsDevice | src/d3drenderer.cpp:23-26 | when init returns, every device object is still live |
| SetupLemmas.InitLive | src/d3drenderer.cpp:23-26 | when init returns, every pointer field deviceSetup and shaderSetup create is live |
| SetupLemmas.PopulateShape | src/d3drenderer.cpp:341-522 | the populateVRAM step table has ten steps |
| SetupLemmas.PopulateShapeSlots | src/d3drenderer.cpp:341-522 | the populateVRAM table creates exactly its ten fields |
| SetupLemmas.PopulateShapeDistinct | src/d3drenderer.cpp:341-522 | the populateVRAM table creates each field once |
| SetupLemmas.DeviceStepsCons | src/d3drenderer.cpp:109-152 | the device creations, one step at a time |
| SetupLemmas.PopulateStepsCons | src/d3drenderer.cpp:341-522 | the populateVRAM creations, one step at a time |
| SetupLemmas.PopulateStepsSlots | src/d3drenderer.cpp:341-522 | populateVRAM touches exactly its seven buffers and three texture views |
| SetupLemmas.PopulateStepsDistinct | src/d3drenderer.cpp:341-522 | populateVRAM creates each field once |
| SetupLemmas.PopulateKeeps | src/d3drenderer.cpp:341-522 | populateVRAM keeps the invariant and is growth within its ten slots |
| SetupLemmas.PopulateStatus | src/d3drenderer.cpp:341-522 | populateVRAM throws the first failing HRESULT of its ten calls, or none; it shouts nothing |
| SetupLemmas.PopulateLive | src/d3drenderer.cpp:341-522 | populateVRAM changes no pointer outside its slots, keeps the locals null, and when it returns all ten are live |
| SetupLemmas.PopulateBuffersFrame | src/d3drenderer.cpp:341-522 | populateVRAM changes no descriptor of a buffer it does not create |
| SetupLemmas.PopulateBuffers | src/d3drenderer.cpp:341-522 | when populateVRAM returns, each of its seven buffers holds the descriptor it was created with (byte width, dynamic or not, initial data) |
| StaticGeometry.SpriteQuadShape | src/d3drenderer.cpp:346-354 | the quad is two triangles sharing a diagonal, its corners at plus or minus viewHeight/2, and, for every view height including 0, vertices 0, 1 and 5 are the right corners with u = 1 (the others u = 0) and vertices 0, 4 and 5 the top corners with v = 1 (the others v = 0) |
| StaticGeometry.CubeIndicesWellFormed | src/d3drenderer.cpp:454-508 | 24 vertices and 36 indices; each index is in range, and group k of six names only face k's four vertices |
| StaticGeometry.CubeFacesCovered | src/d3drenderer.cpp:501-508 | each face is two triangles sharing an edge, and they use all four of its distinct vertices |
| StaticGeometry.CubeFacesFlat | src/d3drenderer.cpp:454-484 | each face's four vertices share one coordinate, +1 or -1, on the face's axis |
| StaticGeometry.CubeCornersUnit | src/d3drenderer.cpp:454-484 | every position coordinate is plus or minus 1, and every texture coordinate is 0 or 1 |
| StaticGeometry.CubeFaceCornersDistinct | src/d3drenderer.cpp:454-484 | no two vertices of one face share a position or a texture coordinate |
| StaticGeometry.ToUint | src/d3drenderer.cpp:372 | ByteWidth is below 2^32, and equals the product when the product fits |
| StaticGeometry.InstanceBufferBytes | src/d3drenderer.cpp:372 | the instance buffer's width is reserve_sprites times 36 bytes when that fits in 32 bits |
| StaticGeometry.FontBufferBytes | src/d3drenderer.cpp:384 | the font buffer's width is reserve_letters times 6 vertices of 16 bytes when that fits in 32 bits |
| StaticGeometry.ReservationsFit | src/d3drenderer.cpp:371-388 | with fitting reservations, n instances fit the instance buffer exactly when n <= reserve_sprites, and n glyph quads fit the font buffer exactly when n <= reserve_letters |
| GlyphLayout.Quad | src/d3drenderer.cpp:639-644 | a glyph quad has six vertices |
| GlyphLayout.LayoutPrefixSnoc | src/d3drenderer.cpp:631-644 | one more character adds its quad when it is a letter A..Z, and nothing otherwise |
| GlyphLayout.LayoutSnoc | src/d3drenderer.cpp:624-646 | one more string adds its vertices at the end |
| GlyphLayout.LayoutPrefixLength | src/d3drenderer.cpp:631-645 | a string's vertex count is six per letter A..Z |
| GlyphLayout.LayoutLength | src/d3drenderer.cpp:624-646 | the frame's vertex count, and so the font draw's vertex count, is six times the number of letters A..Z over all strings |
| GlyphLayout.QuadInPrefix | src/d3drenderer.cpp:631-645 | a letter's quad sits at six times the number of letters before it in its string |
| GlyphLayout.QuadAtEnd | src/d3drenderer.cpp:639-644 | a letter's quad is the last six vertices of the prefix it ends |
| GlyphLayout.PrefixKeepsSlice | src/d3drenderer.cpp:631-645 | laying out another character leaves the vertices already laid out |
| GlyphLayout.LettersBefore | src/d3drenderer.cpp:632-633 | a letter counts in every longer prefix |
| GlyphLayout.LettersMonotone | src/d3drenderer.cpp:632-633 | a longer prefix has at least as many letters |
| GlyphLayout.QuadInLayout | src/d3drenderer.cpp:624-646 | the quad of letter i of string j sits at six times the number of letters before it across all strings: letters keep their order and nothing else lands between them |
| GlyphLayout.LayoutKeepsSlice | src/d3drenderer.cpp:624-646 | laying out another string leaves the vertices already laid out |
| GlyphLayout.LayoutLastSlice | src/d3drenderer.cpp:624-646 | the last string's vertices follow those of the strings before it |
| GlyphLayout.QuadShape | src/d3drenderer.cpp:628-644 | a quad's left edge is slot i of its line, whether or not the characters before it are drawn; it is fontSize * lAspect wide and fontSize high, and its two triangles share a diagonal |
| GlyphLayout.QuadTexture | src/d3drenderer.cpp:632-644 | per vertex, for every font size: u is idx/26 on the three left vertices and (idx+1)/26 on the three right ones, v is 1 on the three bottom vertices and 0 on the top ones; so the atlas strip [idx/26, (idx+1)/26] of the letter lies over the quad left to right, with the atlas's top row at the quad's top |
| Frame.CubeEventsSnoc | src/d3drenderer.cpp:559-568 | one more cube adds its map, write, unmap and draw at the end |
| Frame.MatrixWritesOne | src/d3drenderer.cpp:564-567 | a single event writes its matrix if it is a write and counts as a draw if it is an indexed draw |
| Frame.MatrixWritesAppend | src/d3drenderer.cpp:559-568 | the writes and draws of two traces joined are theirs joined |
| Frame.CubeEventsAt | src/d3drenderer.cpp:559-568 | four events per cube, and event 4k + j is step j of cube k |
| Frame.CubeEventsWrites | src/d3drenderer.cpp:559-568 | the model buffer is written with exactly the cubes' world matrices, in order, and one 36-index draw is made per cube |
| Frame.CubeEventsOnly | src/d3drenderer.cpp:559-568 | every event of the loop is a step of some cube's draw |
| Cube.Data.constructor | src/cube.h:17-18 | the three fields are the arguments |
| Cube.Data.GetWorldMatrix | src/cube.cpp:5-23 | for a rotation that leaves w alone, the matrix hands back the fields: the position is the fourth column, the upper 3x3 is the rotation scaled by the scale factors and transposed, and the last row is (0, 0, 0, 1) |
| Cube.Data.GetPosition | src/cube.cpp:25-27 | storing the vector back gives the position; w is 0 |
| Cube.Data.GetRotation | src/cube.cpp:39-41 | storing the vector back gives the rotation; w is 0 |
| Cube.Data.GetScale | src/cube.cpp:53-55 | storing the vector back gives the scale; w is 0 |
| Cube.Data.SetPosition | src/cube.cpp:29-32 | replaces the position only and returns this object |
| Cube.Data.SetPositionVector | src/cube.cpp:34-37 | stores lanes x, y, z as the position only and returns this object |
| Cube.Data.SetRotation | src/cube.cpp:43-46 | replaces the rotation only and returns this object |
| Cube.Data.SetRotationVector | src/cube.cpp:48-51 | stores lanes x, y, z as the rotation only and returns this object |
| Cube.Data.SetScale | src/cube.cpp:57-60 | replaces the scale only and returns this object |
| Cube.Data.SetScaleVector | src/cube.cpp:62-65 | stores lanes x, y, z as the scale only and returns this object |
| Sprite.SelectPlane | src/sprite.cpp:17-21 | entry (i, j) is entry (i', j') of the 4x4, where 1, 2, 3 map to 1, 2, 4 |
| Sprite.SelectPlaneActsAsTransform | src/sprite.cpp:14-21 | the 3x3 applied to (x, y, 1) gives lanes 1, 2 and 4 of the original transformation applied to the point (x, y) |
| Sprite.Data.constructor | src/sprite.h:22-23 | the three fields are the arguments |
| Sprite.Data.GetWorldMatrix | src/sprite.cpp:5-23 | entry (i, j) is entry (j', i') of the library's 2D transformation with this sprite's scale, rotation and position |
| Sprite.Data.GetPosition | src/sprite.cpp:25-27 | storing the vector back gives the position; z and w are 0 |
| Sprite.Data.GetRotation | src/sprite.cpp:39-41 | the angle as stored |
| Sprite.Data.GetScale | src/sprite.cpp:48-50 | storing the vector back gives the scale; z and w are 0 |
| Sprite.Data.SetPosition | src/sprite.cpp:29-32 | replaces the position only and returns this object |
| Sprite.Data.SetPositionVector | src/sprite.cpp:34-37 | stores lanes x, y as the position only and returns this object |
| Sprite.Data.SetRotation | src/sprite.cpp:43-46 | replaces the rotation only and returns this object |
| Sprite.Data.SetScale | src/sprite.cpp:52-55 | replaces the scale only and returns this object |
| Sprite.Data.SetScaleVector | src/sprite.cpp:57-60 | stores lanes x, y as the scale only and returns this object |
| DirectXMath.LoadFloat2 | src/sprite.cpp:7-8 | XMStoreFloat2 after XMLoadFloat2 gives back the value; z and w are 0 |
| DirectXMath.LoadFloat3 | src/cube.cpp:6 | XMStoreFloat3 after XMLoadFloat3 gives back the value; w is 0 |
| DirectXMath.Multiply | src/cube.cpp:16 | XMMatrixMultiply: each entry is the row-by-column sum of products |
| DirectXMath.Transpose | src/sprite.cpp:15 | XMMatrixTranspose: entry (r, c) is entry (c, r) |
| DirectXMath.Scaling | src/cube.cpp:13 | XMMatrixScalingFromVector: the lanes on the diagonal, 1 at (4, 4), 0 elsewhere |
| DirectXMath.Translation | src/cube.cpp:7 | XMMatrixTranslationFromVector: the identity with the vector in the fourth row |
| DirectXMath.ScaleRotateTranslateTransposed | src/cube.cpp:15-17 | transpose((scale * rotate) * translate) recovers the scale, rotation and position when the rotation leaves w alone |
| DirectXMath.RecoversFromEntries | src/cube.cpp:15-17 | entrywise form of the same recovery |
| DirectXMath.ColumnRecovered | src/cube.cpp:15-17 | the translation row becomes the fourth column after transposing |
| DirectXMath.ScaledRowsKeepW | src/cube.cpp:15-17 | translating rows that have w = 0 leaves their first three entries |
| DirectXMath.UpperRecovered | src/cube.cpp:15-17 | the upper 3x3 after transposing is the rotation scaled by the scale factors, transposed |
| DirectXMath.ScaledEntries | src/cube.cpp:16 | scaling then rotating multiplies row i of the rotation by scale lane i |
| DirectXMath.TranslatedEntries | src/cube.cpp:15-17 | multiplying by a translation adds w times the translation to each row |

## Left out

- Direct3D, DXGI, the HLSL compiler and the DDS texture loader are not
  modelled. They are the `Platform` record: each creating call wrapped in
  `HR` is answered by an HRESULT, and a successful one fills its pointer
  with a new handle. The per-frame calls on the context are not answered
  by the `Platform`; they are only recorded in the trace.
- A failing device creation is taken to fill no pointer.
- A failing creating call is taken to leave its pointer as it was.
- The requested feature levels, the obtained feature level and the creation
  flags are not modelled, because they only reach the driver.
- The swap-chain, blend, depth, sampler and input-layout descriptors are not
  modelled, for the same reason.
- Buffer descriptors keep only the byte width, whether the buffer is dynamic,
  and the initial data.
- The contents of the projection buffer (the perspective and orthographic
  matrices) are left out. They are a library computation, written as
  `ProjectionData`.
- The DDS file names are left out; the three texture creations are plain
  creating steps.
- Floating point is exact real arithmetic. float32 rounding, and the float
  conversion of the window size and the font offsets, are not modelled.
- XMMatrixRotationRollPitchYawFromVector and XMMatrixTransformation2D use
  trigonometry, so they are parameters (`MathLib`). Their values are not
  computed.
- Cube.Data.GetWorldMatrix: recovery is stated only for a rotation that
  leaves w alone, the property every roll-pitch-yaw matrix has.
- The window is left out: SDL, the `_sysWin` reference, and `main`.
  `Window::shout` is a log of messages.
- Renderer.D3DRenderer.RenderSprites: the memcpy into the mapped instance
  buffer has no bound in the code. The model requires the instances to fit
  the buffer, because a larger list writes past the mapping.
- Renderer.D3DRenderer.RenderString: likewise, the model requires the
  letters to fit the font buffer.
- Renderer.D3DRenderer.RenderCube: `Map` on the model buffer is taken to
  succeed. The code ignores its HRESULT (src/d3drenderer.cpp:563) and then
  copies through the mapped pointer, so a failing `Map` is undefined
  behaviour, which the model does not describe. The method requires the
  buffer to be live when the context is; a `Map` that fails for another
  reason (a removed device, say) is not modelled.
- Renderer.D3DRenderer.RenderSprites: `Map` on the instance buffer is taken
  to succeed, as in RenderCube (src/d3drenderer.cpp:581); the method
  requires the buffer to be live when the context is.
- Renderer.D3DRenderer.RenderString: `Map` on the font buffer is taken to
  succeed, as in RenderCube (src/d3drenderer.cpp:649); the method requires
  the buffer to be live when the context is.
- Font.String holds the bytes of the text, one `char` per byte. No
  character encoding is modelled: a multi-byte character takes one slot per
  byte, as in the code.
- `std::vector::reserve` in renderSprites and renderString is not modelled,
  because it only changes capacity.
- Renderer.D3DRenderer.ClrScr: requires a live context, because the code
  calls through it without a check.
- Renderer.D3DRenderer.Present: requires a live swap chain, for the same
  reason.
- Renderer.D3DRenderer.RenderCube: the pipeline set-up calls (input layout,
  buffers, topology, shaders, constant buffers, viewport, resources,
  sampler, targets, blend state) are one `Bind` event per pass.
- Renderer.D3DRenderer.RenderSprites: its pipeline set-up calls are one
  `Bind` event, as in RenderCube.
- Renderer.D3DRenderer.RenderString: its pipeline set-up calls are one
  `Bind` event, as in RenderCube.
- Renderer.D3DRenderer.RenderCube: the world matrices are those of the cubes
  when the call starts; the model does not describe the cubes changing
  while it runs.
- Renderer.D3DRenderer.CompileShader: a compile that succeeds without a code
  blob hands back a null blob. Its later dereference in shaderSetup is not
  modelled.
- Renderer.D3DRenderer.DeviceSetup: the method is split in two at the render
  target view, so its second half is Renderer.D3DRenderer.DeviceObjects.
- The `HR` macro's file, line and function arguments are left out. A thrown
  `com_exception` is the `Failed(hr)` status.
