/** D3DRenderer (src/d3drenderer.h, src/d3drenderer.cpp): the renderer
    object. Its set-up methods are proved to compute the runs of module
    Setup, whose properties SetupLemmas proves; its per-frame methods append
    to `trace` what they hand to the device context; cleanUp retires every
    pointer.

    A thrown `DX::com_exception` is the `Failed(hr)` status a method
    returns: the method stops where the source throws. */
module Renderer {
  import opened Wrappers
  import opened DirectXMath
  import opened Resources
  import opened Setup
  import opened Frame
  import SetupLemmas
  import Sprite
  import Cube
  import Font
  import GlyphLayout
  import StaticGeometry

  /** D3D11_VIEWPORT */
  datatype Viewport = Viewport(topLeftX: real, topLeftY: real, width: real, height: real, minDepth: real, maxDepth: real)

  /** The world matrices of a list of cubes, in order. */
  function CubeWorlds(lib: MathLib, cubes: seq<Cube.Data>): (ws: seq<Mat4>)
    reads set c | c in cubes
    ensures |ws| == |cubes| && forall k | 0 <= k < |cubes| :: ws[k] == cubes[k].GetWorldMatrix(lib)
  {
    if |cubes| == 0 then [] else CubeWorlds(lib, cubes[..|cubes| - 1]) + [cubes[|cubes| - 1].GetWorldMatrix(lib)]
  }

  /** The instance matrices of a list of sprites, in order. */
  function SpriteWorlds(lib: MathLib, sprites: seq<Sprite.Data>): (ws: seq<Sprite.Instance>)
    reads set s | s in sprites
    ensures |ws| == |sprites| && forall k | 0 <= k < |sprites| :: ws[k] == sprites[k].GetWorldMatrix(lib)
  {
    if |sprites| == 0 then [] else SpriteWorlds(lib, sprites[..|sprites| - 1]) + [sprites[|sprites| - 1].GetWorldMatrix(lib)]
  }

  /** deviceSetup reaches the viewport assignment: a driver type yields a
      device and the five creations before it succeed. */
  predicate ViewportReached(p: Platform)
  {
    && FirstSuccess(p.createDevice, DriverOrder).Some?
    && Succeeded(p.create(Temp(BackBufferTex))) && Succeeded(p.create(Member(BBufferTarget)))
    && ObjectsReachViewport(p)
  }

  /** After the render target view, the viewport is set when the blend
      state, the depth texture and its view are all made. */
  predicate ObjectsReachViewport(p: Platform)
  {
    && Succeeded(p.create(Member(BlendState))) && Succeeded(p.create(Member(DepthTex)))
    && Succeeded(p.create(Member(DepthTexView)))
  }

  class D3DRenderer {
    var viewWidth: real
    var viewHeight: real
    var driverType: DriverType
    var viewport: Viewport

    /** The COM pointers, with the log of Release calls. */
    var handles: Store
    /** What Window::shout was asked to show. */
    var shouts: seq<Shout>
    /** The descriptors the buffers were created with. */
    var buffers: map<Field, BufferDesc>

    /** _spriteInstMem and _fontVertMem */
    var spriteInstMem: seq<Sprite.Instance>
    var fontVertMem: seq<Sprite.Vertex>

    /** What the device context and the swap chain were asked to do. */
    var trace: seq<Event>

    /** The set-up state, as a run that has not thrown. */
    function Snapshot(): Run
      reads this
    {
      Run(Done, handles, shouts, buffers)
    }

    /** The set-up state after a method that returned `status`. */
    function State(status: Status): Run
      reads this
    {
      Run(status, handles, shouts, buffers)
    }

    /** The pointer field f is non-null. */
    predicate Live(f: Field)
      reads this
    {
      Held(handles, Member(f)).Some?
    }

    /** The constructor: the view size is the window's (the -1 defaults of
        the fields never survive it); every pointer is null. */
    constructor (windowWidth: int, windowHeight: int)
      ensures viewWidth == windowWidth as real && viewHeight == windowHeight as real
      ensures handles == Initial() && Valid(handles) && LocalsNull(handles)
      ensures driverType == NullDriver && viewport == Viewport(0.0, 0.0, 0.0, 0.0, 0.0, 0.0)
      ensures buffers == map[] && spriteInstMem == [] && fontVertMem == [] && trace == [] && shouts == []
    {
      viewWidth := windowWidth as real;
      viewHeight := windowHeight as real;
      driverType := NullDriver;
      viewport := Viewport(0.0, 0.0, 0.0, 0.0, 0.0, 0.0);
      handles := Initial();
      buffers := map[];
      spriteInstMem, fontVertMem := [], [];
      trace, shouts := [], [];
    }

    /** retire: release a non-null pointer once and null it. */
    method Retire(s: Slot)
      modifies this`handles
      ensures handles == Retired(old(handles), s)
    {
      if Held(handles, s) == None {
        return;
      }
      handles := handles.(slots := handles.slots[s := None], released := handles.released + [Held(handles, s).value]);
    }

    /** HR(call) on a creating call. */
    method Create(p: Platform, s: Slot) returns (status: Status)
      modifies this`handles
      ensures State(status) == Setup.Create(old(Snapshot()), p, s)
      ensures status.Done? == Succeeded(p.create(s))
    {
      var hr := p.create(s);
      if !Succeeded(hr) {
        return Failed(hr);
      }
      handles := Acquired(handles, s);
      status := Done;
    }

    /** HR(CreateBuffer(...)): a creating call that records the descriptor. */
    method CreateBuffer(p: Platform, f: Field, desc: BufferDesc) returns (status: Status)
      modifies this`handles, this`buffers
      ensures State(status) == Setup.CreateBuffer(old(Snapshot()), p, f, desc)
    {
      status := Create(p, Member(f));
      if status.Done? {
        buffers := buffers[f := desc];
      }
    }

    /** init: deviceSetup, then shaderSetup; a throw of deviceSetup
        propagates and shaderSetup does not run. */
    method Init(p: Platform) returns (status: Status)
      requires LocalsNull(handles)
      modifies this`handles, this`driverType, this`viewport, this`shouts
      ensures State(status) == InitRun(old(Snapshot()), p)
      ensures driverType == match FirstSuccess(p.createDevice, DriverOrder)
        case Some(d) => d
        case None => old(driverType)
      ensures viewport == if ViewportReached(p) then Viewport(0.0, 0.0, viewWidth, viewHeight, 0.0, 1.0) else old(viewport)
    {
      status := DeviceSetup(p);
      ghost var mid := State(status);
      SetupLemmas.DeviceLocals(old(Snapshot()), p);
      if status.Failed? {
        SetupLemmas.StagesStatus(mid, p, ShaderStages);
        return;
      }
      status := ShaderSetup(p);
    }

    /** deviceSetup: try the driver types in order and keep the first that
        yields a device; then the render target view (through the
        back-buffer texture, which is retired on every path), the blend
        state, the depth texture and its view, the viewport and the
        sampler. */
    method DeviceSetup(p: Platform) returns (status: Status)
      modifies this`handles, this`driverType, this`viewport
      ensures State(status) == DeviceRun(old(Snapshot()), p)
      ensures driverType == match FirstSuccess(p.createDevice, DriverOrder)
        case Some(d) => d
        case None => old(driverType)
      ensures viewport == if ViewportReached(p) then Viewport(0.0, 0.0, viewWidth, viewHeight, 0.0, 1.0) else old(viewport)
    {
      ghost var found := FirstSuccess(p.createDevice, DriverOrder);
      assert DriverOrder[0..] == DriverOrder;
      var res := EFail;
      var k := 0;
      while k < |DriverOrder|
        invariant 0 <= k <= |DriverOrder|
        invariant found == FirstSuccess(p.createDevice, DriverOrder[k..])
        invariant k == 0 ==> res == EFail
        invariant k > 0 ==> res == p.createDevice(DriverOrder[k - 1]) && !Succeeded(res)
        invariant handles == old(handles) && driverType == old(driverType) && viewport == old(viewport)
      {
        FirstSuccessFrom(p.createDevice, DriverOrder, k);
        res := p.createDevice(DriverOrder[k]);
        if Succeeded(res) {
          driverType := DriverOrder[k];
          handles := Acquired(Acquired(Acquired(handles, Member(SwapChain)), Member(Device)), Member(Context));
          break;
        }
        k := k + 1;
      }
      if !Succeeded(res) {
        assert DriverOrder[k..] == [];
        return Failed(res);
      }
      assert found == Some(driverType);
      assert DeviceRun(old(Snapshot()), p) == TargetsRun(Snapshot(), p);
      status := Create(p, Temp(BackBufferTex));
      if status.Failed? {
        return;
      }
      status := Create(p, Member(BBufferTarget));
      Retire(Temp(BackBufferTex));
      if status.Failed? {
        return;
      }
      status := DeviceObjects(p);
    }

    /** The objects deviceSetup makes after the render target view: the
        blend state, the depth texture and its view, then the viewport and
        the sampler. */
    method DeviceObjects(p: Platform) returns (status: Status)
      modifies this`handles, this`viewport
      ensures State(status) == StepsRun(old(Snapshot()), p, DeviceSteps)
      ensures viewport == if ObjectsReachViewport(p) then Viewport(0.0, 0.0, viewWidth, viewHeight, 0.0, 1.0) else old(viewport)
    {
      // The steps still to run after each step, as in DeviceStepsCons.
      ghost var t3 := [Object(TexSampler)];
      ghost var t2 := [Object(DepthTexView)] + t3;
      ghost var t1 := [Object(DepthTex)] + t2;
      SetupLemmas.DeviceStepsCons();
      ghost var r := Snapshot();
      status := Create(p, Member(BlendState));
      SetupLemmas.StepsRunCons(r, p, Object(BlendState), t1);
      if status.Failed? {
        SetupLemmas.StepsHalted(State(status), p, t1);
        assert !ObjectsReachViewport(p);
        return;
      }
      r := State(status);
      status := Create(p, Member(DepthTex));
      SetupLemmas.StepsRunCons(r, p, Object(DepthTex), t2);
      if status.Failed? {
        SetupLemmas.StepsHalted(State(status), p, t2);
        assert !ObjectsReachViewport(p);
        return;
      }
      r := State(status);
      status := Create(p, Member(DepthTexView));
      SetupLemmas.StepsRunCons(r, p, Object(DepthTexView), t3);
      if status.Failed? {
        SetupLemmas.StepsHalted(State(status), p, t3);
        assert !ObjectsReachViewport(p);
        return;
      }
      viewport := Viewport(0.0, 0.0, viewWidth, viewHeight, 0.0, 1.0);
      r := State(status);
      status := Create(p, Member(TexSampler));
      SetupLemmas.StepsRunCons(r, p, Object(TexSampler), []);
    }

    /** compileShader: the compiler fills the shader blob and the error
        blob. On failure the error text is shouted if there is an error
        blob, both blobs are retired and the HRESULT is thrown; on success
        the error blob is retired and the shader blob handed back. */
    method CompileShader(p: Platform, entry: ShaderEntry) returns (status: Status, blob: Option<HandleId>)
      requires LocalsNull(handles)
      modifies this`handles, this`shouts
      ensures State(status) == CompileRun(old(Snapshot()), p.compile(entry))
      ensures blob == if status.Done? then Held(handles, Temp(ShaderBlob)) else None
    {
      var c := p.compile(entry);
      if c.code {
        handles := Acquired(handles, Temp(ShaderBlob));
      }
      if c.errors.Some? {
        handles := Acquired(handles, Temp(ErrorBlob));
      }
      if !Succeeded(c.hr) {
        if Held(handles, Temp(ErrorBlob)).Some? {
          shouts := shouts + [Shout(c.errors.value, ShaderError)];
          Retire(Temp(ErrorBlob));
        }
        Retire(Temp(ShaderBlob));
        return Failed(c.hr), None;
      }
      Retire(Temp(ErrorBlob));
      return Done, Held(handles, Temp(ShaderBlob));
    }

    /** One block of shaderSetup: compile, create the shader and, for a
        block that has one, the input layout; the blob is retired before a
        creation failure is rethrown, and after the block. */
    method ShaderStage(p: Platform, s: Stage) returns (status: Status)
      requires LocalsNull(handles)
      modifies this`handles, this`shouts
      ensures State(status) == StageRun(old(Snapshot()), p, s)
    {
      var sBuffer;
      status, sBuffer := CompileShader(p, s.entry);
      if status.Failed? {
        return;
      }
      status := Create(p, Member(s.shader));
      if status.Failed? {
        Retire(Temp(ShaderBlob));
        return;
      }
      if s.layout.Some? {
        status := Create(p, Member(s.layout.value));
        if status.Failed? {
          Retire(Temp(ShaderBlob));
          return;
        }
      }
      Retire(Temp(ShaderBlob));
    }

    /** shaderSetup: the five blocks in source order; the first throw stops
        the rest. */
    method ShaderSetup(p: Platform) returns (status: Status)
      requires LocalsNull(handles)
      modifies this`handles, this`shouts
      ensures State(status) == ShaderRun(old(Snapshot()), p)
    {
      ghost var stages := ShaderStages;
      ghost var r := Snapshot();
      status := ShaderStage(p, Stage(SpriteVSEntry, SpriteVS, Some(SpriteIL)));
      SetupLemmas.StagesRunFrom(r, p, stages, 0);
      SetupLemmas.StageLocals(r, p, stages[0]);
      if status.Failed? {
        SetupLemmas.StagesStatus(State(status), p, stages[1..]);
        return;
      }
      r := State(status);
      status := ShaderStage(p, Stage(FontVSEntry, FontVS, None));
      SetupLemmas.StagesRunFrom(r, p, stages, 1);
      SetupLemmas.StageLocals(r, p, stages[1]);
      if status.Failed? {
        SetupLemmas.StagesStatus(State(status), p, stages[2..]);
        return;
      }
      r := State(status);
      status := ShaderStage(p, Stage(CubeVSEntry, CubeVS, Some(CubeIL)));
      SetupLemmas.StagesRunFrom(r, p, stages, 2);
      SetupLemmas.StageLocals(r, p, stages[2]);
      if status.Failed? {
        SetupLemmas.StagesStatus(State(status), p, stages[3..]);
        return;
      }
      r := State(status);
      status := ShaderStage(p, Stage(SpritePSEntry, PS, None));
      SetupLemmas.StagesRunFrom(r, p, stages, 3);
      SetupLemmas.StageLocals(r, p, stages[3]);
      if status.Failed? {
        SetupLemmas.StagesStatus(State(status), p, stages[4..]);
        return;
      }
      r := State(status);
      status := ShaderStage(p, Stage(CombiPSEntry, CombiPS, None));
      SetupLemmas.StagesRunFrom(r, p, stages, 4);
    }

    /** populateVRAM: the seven buffers and three textures in source order;
        the first throw stops the rest. */
    method PopulateVRAM(p: Platform, reserveSprites: nat, reserveLetters: nat) returns (status: Status)
      requires reserveSprites < 0x1_0000_0000 && reserveLetters < 0x1_0000_0000
      modifies this`handles, this`buffers
      ensures State(status) == PopulateRun(old(Snapshot()), p, viewHeight, reserveSprites, reserveLetters)
    {
      // The steps still to run after each step, as in PopulateStepsCons.
      ghost var t9 := [Buffer(CubeIdxBuf, CubeIdxDesc)];
      ghost var t8 := [Buffer(CubeVertBuf, CubeVertDesc)] + t9;
      ghost var t7 := [Buffer(CubeModelBuf, CubeModelDesc)] + t8;
      ghost var t6 := [Object(HeartTexView)] + t7;
      ghost var t5 := [Object(FontTexView)] + t6;
      ghost var t4 := [Object(WoodTexView)] + t5;
      ghost var t3 := [Buffer(ProjBuf, ProjDesc)] + t4;
      ghost var t2 := [Buffer(FontVertBuf, FontDesc(reserveLetters))] + t3;
      ghost var t1 := [Buffer(SpriteInstBuf, InstanceDesc(reserveSprites))] + t2;
      SetupLemmas.PopulateStepsCons(viewHeight, reserveSprites, reserveLetters);
      ghost var r := Snapshot();
      status := CreateBuffer(p, SpriteVertBuf, SpriteVertDesc(viewHeight));
      SetupLemmas.StepsRunCons(r, p, Buffer(SpriteVertBuf, SpriteVertDesc(viewHeight)), t1);
      if status.Failed? {
        SetupLemmas.StepsHalted(State(status), p, t1);
        return;
      }
      r := State(status);
      status := CreateBuffer(p, SpriteInstBuf, InstanceDesc(reserveSprites));
      SetupLemmas.StepsRunCons(r, p, Buffer(SpriteInstBuf, InstanceDesc(reserveSprites)), t2);
      if status.Failed? {
        SetupLemmas.StepsHalted(State(status), p, t2);
        return;
      }
      r := State(status);
      status := CreateBuffer(p, FontVertBuf, FontDesc(reserveLetters));
      SetupLemmas.StepsRunCons(r, p, Buffer(FontVertBuf, FontDesc(reserveLetters)), t3);
      if status.Failed? {
        SetupLemmas.StepsHalted(State(status), p, t3);
        return;
      }
      r := State(status);
      status := CreateBuffer(p, ProjBuf, ProjDesc);
      SetupLemmas.StepsRunCons(r, p, Buffer(ProjBuf, ProjDesc), t4);
      if status.Failed? {
        SetupLemmas.StepsHalted(State(status), p, t4);
        return;
      }
      r := State(status);
      status := Create(p, Member(WoodTexView));
      SetupLemmas.StepsRunCons(r, p, Object(WoodTexView), t5);
      if status.Failed? {
        SetupLemmas.StepsHalted(State(status), p, t5);
        return;
      }
      r := State(status);
      status := Create(p, Member(FontTexView));
      SetupLemmas.StepsRunCons(r, p, Object(FontTexView), t6);
      if status.Failed? {
        SetupLemmas.StepsHalted(State(status), p, t6);
        return;
      }
      r := State(status);
      status := Create(p, Member(HeartTexView));
      SetupLemmas.StepsRunCons(r, p, Object(HeartTexView), t7);
      if status.Failed? {
        SetupLemmas.StepsHalted(State(status), p, t7);
        return;
      }
      r := State(status);
      status := CreateBuffer(p, CubeModelBuf, CubeModelDesc);
      SetupLemmas.StepsRunCons(r, p, Buffer(CubeModelBuf, CubeModelDesc), t8);
      if status.Failed? {
        SetupLemmas.StepsHalted(State(status), p, t8);
        return;
      }
      r := State(status);
      status := CreateBuffer(p, CubeVertBuf, CubeVertDesc);
      SetupLemmas.StepsRunCons(r, p, Buffer(CubeVertBuf, CubeVertDesc), t9);
      if status.Failed? {
        SetupLemmas.StepsHalted(State(status), p, t9);
        return;
      }
      r := State(status);
      status := CreateBuffer(p, CubeIdxBuf, CubeIdxDesc);
      SetupLemmas.StepsRunCons(r, p, Buffer(CubeIdxBuf, CubeIdxDesc), []);
    }

    /** clrScr: clear the render target to the colour and the depth buffer
        to 1. The context is dereferenced unguarded. */
    method ClrScr(color: Rgba)
      requires Live(Context)
      modifies this`trace
      ensures trace == old(trace) + [ClearTarget(color), ClearDepth(1.0)]
    {
      trace := trace + [ClearTarget(color), ClearDepth(1.0)];
    }

    /** renderCube: nothing without a context; otherwise bind the cube
        pipeline, then per cube upload its world matrix and draw. The HRESULT
        of Map is ignored, so the model buffer must exist for the write to
        land anywhere. */
    method RenderCube(lib: MathLib, cubes: seq<Cube.Data>)
      requires Live(Context) ==> Live(CubeModelBuf)
      modifies this`trace
      ensures trace == if Live(Context) then old(trace) + [Bind(CubePass)] + CubeEvents(old(CubeWorlds(lib, cubes))) else old(trace)
    {
      if !Live(Context) {
        return;
      }
      DrawCubes(lib, cubes);
    }

    /** renderCube once the context is known: bind the cube pipeline, then
        per cube in order rewrite the model buffer with its world matrix and
        draw the 36 cube indices. */
    method DrawCubes(lib: MathLib, cubes: seq<Cube.Data>)
      modifies this`trace
      ensures trace == old(trace) + [Bind(CubePass)] + CubeEvents(old(CubeWorlds(lib, cubes)))
    {
      ghost var models := CubeWorlds(lib, cubes);
      trace := trace + [Bind(CubePass)];
      var iter := 0;
      while iter < |cubes|
        invariant 0 <= iter <= |cubes|
        invariant trace == old(trace) + [Bind(CubePass)] + CubeEvents(models[..iter])
      {
        var model := cubes[iter].GetWorldMatrix(lib);
        assert models[..iter + 1] == models[..iter] + [model];
        CubeEventsSnoc(models[..iter], model);
        trace := trace + CubeDraw(model);
        iter := iter + 1;
      }
      assert models[..|cubes|] == models;
    }

    /** renderSprites: nothing without a context; otherwise rebuild the
        instance list from the sprites' world matrices, upload it, bind the
        sprite pipeline and draw one quad instance per sprite. The upload
        copies the whole list into the instance buffer, so it must exist
        (the HRESULT of Map is ignored) and the list must fit. */
    method RenderSprites(lib: MathLib, sprites: seq<Sprite.Data>)
      requires Live(Context) ==>
        Live(SpriteInstBuf) && SpriteInstBuf in buffers && |sprites| * StaticGeometry.InstanceBytes <= buffers[SpriteInstBuf].byteWidth
      modifies this`spriteInstMem, this`trace
      ensures Live(Context) ==>
        spriteInstMem == old(SpriteWorlds(lib, sprites)) && trace == old(trace) + SpriteEvents(spriteInstMem, |sprites|)
      ensures !Live(Context) ==> spriteInstMem == old(spriteInstMem) && trace == old(trace)
    {
      if !Live(Context) {
        return;
      }
      ghost var instances := SpriteWorlds(lib, sprites);
      spriteInstMem := [];
      var iter := 0;
      while iter < |sprites|
        invariant 0 <= iter <= |sprites|
        invariant spriteInstMem == instances[..iter] && trace == old(trace)
      {
        assert instances[..iter + 1] == instances[..iter] + [instances[iter]];
        spriteInstMem := spriteInstMem + [sprites[iter].GetWorldMatrix(lib)];
        iter := iter + 1;
      }
      assert instances[..|sprites|] == instances;
      trace := trace + [ MapDiscard(SpriteInstBuf), WriteInstances(spriteInstMem), Unmap(SpriteInstBuf),
                         Bind(SpritePass), DrawInstanced(6, |sprites|, 0, 0) ];
    }

    /** renderString: nothing without a context; otherwise lay out every
        upper-case letter of every string as a quad, skipping any other
        character, upload the vertices, bind the font pipeline and draw
        them all. The font buffer must exist (the HRESULT of Map is ignored)
        and the upload must fit it. */
    method RenderString(strings: seq<Font.String>)
      requires Live(Context) ==>
        Live(FontVertBuf) && FontVertBuf in buffers &&
        GlyphLayout.Letters(strings) * 6 * StaticGeometry.SpriteVertexBytes <= buffers[FontVertBuf].byteWidth
      modifies this`fontVertMem, this`trace
      ensures Live(Context) ==>
        fontVertMem == GlyphLayout.Layout(strings) && trace == old(trace) + FontEvents(fontVertMem)
      ensures !Live(Context) ==> fontVertMem == old(fontVertMem) && trace == old(trace)
    {
      if !Live(Context) {
        return;
      }
      fontVertMem := [];
      var s := 0;
      while s < |strings|
        invariant 0 <= s <= |strings|
        invariant fontVertMem == GlyphLayout.Layout(strings[..s]) && trace == old(trace)
      {
        var str := strings[s];
        ghost var done := fontVertMem;
        var i := 0;
        while i < |str.data|
          invariant 0 <= i <= |str.data|
          invariant fontVertMem == done + GlyphLayout.LayoutPrefix(str, i)
          invariant trace == old(trace)
        {
          var idx := GlyphLayout.AtlasIndex(str.data[i]);
          GlyphLayout.LayoutPrefixSnoc(str, i);
          if idx < 0 || idx > 25 {
            i := i + 1;
            continue;
          }
          fontVertMem := fontVertMem + GlyphLayout.Quad(str, i);
          assert fontVertMem == done + (GlyphLayout.LayoutPrefix(str, i) + GlyphLayout.Quad(str, i));
          i := i + 1;
        }
        GlyphLayout.LayoutSnoc(strings, s);
        s := s + 1;
      }
      assert strings[..|strings|] == strings;
      trace := trace + [ MapDiscard(FontVertBuf), WriteVertices(fontVertMem), Unmap(FontVertBuf),
                         Bind(FontPass), Draw(|fontVertMem|, 0) ];
    }

    /** present: show the frame with vsync, through the swap chain, which
        is dereferenced unguarded. */
    method Present()
      requires Live(SwapChain)
      modifies this`trace
      ensures trace == old(trace) + [Event.Present(1, 0)]
    {
      trace := trace + [Event.Present(1, 0)];
    }

    /** cleanUp: retire every pointer field, in the order of CleanupOrder. */
    method CleanUp()
      modifies this`handles
      ensures handles == RetireAll(old(handles), CleanupSlots())
    {
      Retire(Member(TexSampler));
      Retire(Member(FontTexView));
      Retire(Member(WoodTexView));
      Retire(Member(HeartTexView));
      Retire(Member(BlendState));
      Retire(Member(ProjBuf));
      Retire(Member(SpriteInstBuf));
      Retire(Member(SpriteVertBuf));
      Retire(Member(FontVertBuf));
      Retire(Member(CubeModelBuf));
      Retire(Member(CubeIdxBuf));
      Retire(Member(CubeVertBuf));
      Retire(Member(SpriteIL));
      Retire(Member(CubeIL));
      Retire(Member(CubeVS));
      Retire(Member(FontVS));
      Retire(Member(SpriteVS));
      Retire(Member(CombiPS));
      Retire(Member(PS));
      Retire(Member(DepthTexView));
      Retire(Member(DepthTex));
      Retire(Member(BBufferTarget));
      Retire(Member(SwapChain));
      Retire(Member(Context));
      Retire(Member(Device));
      CleanupInOrderRetiresAll(old(handles));
    }
  }
}
