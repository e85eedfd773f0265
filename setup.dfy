/** The set-up half of D3DRenderer (src/d3drenderer.cpp:23-522): deviceSetup,
    compileShader, shaderSetup and populateVRAM, as functions from the
    renderer's set-up state before a call to the state after it.

    Every Direct3D, DXGI, compiler and texture-loader call is answered by a
    `Platform`, a record of functions from the call to its HRESULT; a call
    that succeeds stores a newly issued handle in the pointer it was given.
    A thrown `DX::com_exception` is the `Failed(hr)` status of a `Run`:
    whatever comes after it in the same method does not happen. */
module Setup {
  import opened Wrappers
  import opened Resources
  import Sprite
  import Cube
  import StaticGeometry

  /** HRESULT: SUCCEEDED(hr) is hr >= 0. */
  type HResult = int

  predicate Succeeded(hr: HResult)
  {
    hr >= 0
  }

  /** E_FAIL, 0x80004005 read as a signed 32-bit value. */
  const EFail: HResult := 0x8000_4005 - 0x1_0000_0000

  /** D3D_DRIVER_TYPE; `_driverType` starts as D3D_DRIVER_TYPE_NULL. */
  datatype DriverType = NullDriver | Hardware | Warp | Software

  /** The driver types deviceSetup tries, in order. */
  const DriverOrder: seq<DriverType> := [Hardware, Warp, Software]

  /** The arguments of compileShader: file, entry point, target profile. */
  datatype ShaderEntry = ShaderEntry(file: string, entry: string, version: string)

  /** What D3DCompileFromFile reports: its HRESULT, whether it produced a code
      blob, and the text of the error blob if it produced one. */
  datatype Compiled = Compiled(hr: HResult, code: bool, errors: Option<string>)

  datatype Platform = Platform(
    /** D3D11CreateDeviceAndSwapChain for one driver type; on success it
        fills the swap chain, the device and the context. */
    createDevice: DriverType -> HResult,
    /** Every other creating call: IDXGISwapChain::GetBuffer for the
        back-buffer texture, ID3D11Device::Create* and
        CreateDDSTextureFromFile for the fields. */
    create: Slot -> HResult,
    compile: ShaderEntry -> Compiled
  )

  /** The outcome of a method: it returned, or it threw the HRESULT. */
  datatype Status = Done | Failed(hr: HResult)

  /** The status of HR(...) calls run in order: the first failing HRESULT,
      or Done if none fails. */
  function Outcome(hrs: seq<HResult>): Status
  {
    if |hrs| == 0 then Done
    else if !Succeeded(hrs[0]) then Failed(hrs[0])
    else Outcome(hrs[1..])
  }

  /** Window::shout(message, title) */
  datatype Shout = Shout(message: string, title: string)

  const ShaderFile: string := "sampleShader.hlsl"
  const SpriteVSEntry: ShaderEntry := ShaderEntry(ShaderFile, "spriteVS", "vs_4_0")
  const FontVSEntry: ShaderEntry := ShaderEntry(ShaderFile, "fontVS", "vs_4_0")
  const CubeVSEntry: ShaderEntry := ShaderEntry(ShaderFile, "cubeVS", "vs_4_0")
  const SpritePSEntry: ShaderEntry := ShaderEntry(ShaderFile, "spritePS", "ps_4_0")
  const CombiPSEntry: ShaderEntry := ShaderEntry(ShaderFile, "combiPS", "ps_4_0")
  const ShaderError: string := "Shader error"

  /** The contents a buffer is created with. */
  datatype InitialData =
    | NoData
    | SpriteQuadData(quad: seq<Sprite.Vertex>)
    | CubeVertexData(vertices: seq<Cube.Vertex>)
    | IndexData(indices: seq<nat>)
    | ProjectionData   // the perspective and orthographic matrices, not modelled

  /** The part of D3D11_BUFFER_DESC that varies: ByteWidth, and whether the
      buffer is dynamic (D3D11_USAGE_DYNAMIC with CPU write access). */
  datatype BufferDesc = BufferDesc(byteWidth: nat, dynamic: bool, init: InitialData)

  /** The set-up state of the renderer: what the last call returned or
      threw, its COM pointers, the messages shown to the user, and the
      descriptor of every buffer created. */
  datatype Run = Run(status: Status, handles: Store, shouts: seq<Shout>, buffers: map<Field, BufferDesc>)

  /** HR(call) on a creating call: on success the pointer holds a new
      handle, on failure the HRESULT is thrown. Nothing runs after a throw. */
  function Create(r: Run, p: Platform, s: Slot): Run
  {
    if r.status.Failed? then r
    else if Succeeded(p.create(s)) then r.(handles := Acquired(r.handles, s))
    else r.(status := Failed(p.create(s)))
  }

  /** Create for a buffer, which also records the descriptor. */
  function CreateBuffer(r: Run, p: Platform, f: Field, desc: BufferDesc): Run
  {
    var r' := Create(r, p, Member(f));
    if r.status.Done? && r'.status.Done? then r'.(buffers := r'.buffers[f := desc]) else r'
  }

  function StepRun(r: Run, p: Platform, s: Step): Run
  {
    match s
    case Object(f) => Create(r, p, Member(f))
    case Buffer(f, desc) => CreateBuffer(r, p, f, desc)
  }

  /** Steps run in order; the first throw stops the rest. */
  function StepsRun(r: Run, p: Platform, steps: seq<Step>): Run
    decreases |steps|
  {
    if |steps| == 0 then r else StepsRun(StepRun(r, p, steps[0]), p, steps[1..])
  }

  /** retire on a local pointer; it runs on the throwing path as well (the
      catch blocks of deviceSetup and shaderSetup). */
  function Release(r: Run, s: Slot): Run
  {
    r.(handles := Retired(r.handles, s))
  }

  /** One block of shaderSetup: the entry point it compiles, the shader it
      creates and, for the two vertex shaders that have one, the input
      layout. */
  datatype Stage = Stage(entry: ShaderEntry, shader: Field, layout: Option<Field>)

  /** The five blocks of shaderSetup, in source order. */
  const ShaderStages: seq<Stage> := [
    Stage(SpriteVSEntry, SpriteVS, Some(SpriteIL)), Stage(FontVSEntry, FontVS, None),
    Stage(CubeVSEntry, CubeVS, Some(CubeIL)), Stage(SpritePSEntry, PS, None), Stage(CombiPSEntry, CombiPS, None) ]

  /** A creating call on a member pointer: a plain object (state, view,
      texture), or a buffer made from a descriptor. */
  datatype Step = Object(f: Field) | Buffer(f: Field, desc: BufferDesc)

  /** The calls of a sequence of steps, in order. */
  function StepsResults(p: Platform, steps: seq<Step>): (hrs: seq<HResult>)
    ensures |hrs| == |steps| && forall k | 0 <= k < |steps| :: hrs[k] == p.create(Member(steps[k].f))
  {
    if |steps| == 0 then [] else [p.create(Member(steps[0].f))] + StepsResults(p, steps[1..])
  }

  /** The creations of deviceSetup that follow the render target view. */
  const DeviceSteps: seq<Step> := [Object(BlendState), Object(DepthTex), Object(DepthTexView), Object(TexSampler)]

  /** The creating calls of deviceSetup after the device, in order. */
  function DeviceResults(p: Platform): seq<HResult>
  {
    [p.create(Temp(BackBufferTex)), p.create(Member(BBufferTarget))] + StepsResults(p, DeviceSteps)
  }

  /** The calls of one shaderSetup block, in order. */
  function StageResults(p: Platform, s: Stage): seq<HResult>
  {
    [p.compile(s.entry).hr, p.create(Member(s.shader))] + (if s.layout.Some? then [p.create(Member(s.layout.value))] else [])
  }

  /** The calls of a sequence of shaderSetup blocks, in order. */
  function StagesResults(p: Platform, stages: seq<Stage>): seq<HResult>
  {
    if |stages| == 0 then [] else StageResults(p, stages[0]) + StagesResults(p, stages[1..])
  }

  /** The calls of shaderSetup, in order. */
  function ShaderResults(p: Platform): seq<HResult>
  {
    StagesResults(p, ShaderStages)
  }

  /** The first driver type in `order` whose device creation succeeds. */
  function FirstSuccess(createDevice: DriverType -> HResult, order: seq<DriverType>): Option<DriverType>
  {
    if |order| == 0 then None
    else if Succeeded(createDevice(order[0])) then Some(order[0])
    else FirstSuccess(createDevice, order[1..])
  }

  /** FirstSuccess from position k on: driver k if it succeeds, else the
      search goes on from k + 1. */
  lemma FirstSuccessFrom(createDevice: DriverType -> HResult, order: seq<DriverType>, k: nat)
    requires k < |order|
    ensures FirstSuccess(createDevice, order[k..]) ==
      if Succeeded(createDevice(order[k])) then Some(order[k]) else FirstSuccess(createDevice, order[k + 1..])
  {
    assert order[k..][1..] == order[k + 1..];
  }

  /** FirstSuccess finds a driver exactly when one succeeds; the one it finds
      succeeds and every driver before it failed. */
  lemma {:induction false} FirstSuccessSpec(createDevice: DriverType -> HResult, order: seq<DriverType>)
    ensures FirstSuccess(createDevice, order).None? <==> forall k | 0 <= k < |order| :: !Succeeded(createDevice(order[k]))
    ensures FirstSuccess(createDevice, order).Some? ==>
      exists k | 0 <= k < |order| ::
        && order[k] == FirstSuccess(createDevice, order).value
        && Succeeded(createDevice(order[k]))
        && forall j | 0 <= j < k :: !Succeeded(createDevice(order[j]))
  {
    if |order| > 0 && !Succeeded(createDevice(order[0])) {
      var rest := order[1..];
      FirstSuccessSpec(createDevice, rest);
      assert forall k | 1 <= k < |order| :: order[k] == rest[k - 1];
      if FirstSuccess(createDevice, rest).Some? {
        var k :| 0 <= k < |rest| && rest[k] == FirstSuccess(createDevice, rest).value
          && Succeeded(createDevice(rest[k])) && forall j | 0 <= j < k :: !Succeeded(createDevice(rest[j]));
        assert order[k + 1] == rest[k];
      }
    } else if |order| > 0 {
      assert order[0] == FirstSuccess(createDevice, order).value;
    }
  }

  /** deviceSetup: the first driver type that yields a device wins and fills
      the swap chain, device and context; if none does, the last failure is
      thrown. Then the render target view is made through the back-buffer
      texture, which is retired whether or not that succeeds, and the blend
      state, depth texture, depth view and sampler follow. */
  function DeviceRun(r: Run, p: Platform): Run
  {
    if r.status.Failed? then r
    else match FirstSuccess(p.createDevice, DriverOrder)
      case None => r.(status := Failed(p.createDevice(Software)))
      case Some(_) =>
        TargetsRun(r.(handles := Acquired(Acquired(Acquired(r.handles, Member(SwapChain)), Member(Device)), Member(Context))), p)
  }

  /** The part of deviceSetup after the device exists. */
  function TargetsRun(r0: Run, p: Platform): Run
  {
    var r1 := Create(r0, p, Temp(BackBufferTex));
    if r1.status.Failed? then r1
    else
      var r2 := Release(Create(r1, p, Member(BBufferTarget)), Temp(BackBufferTex));
      StepsRun(r2, p, DeviceSteps)
  }

  /** What compileShader shouts: the error text of a failed compile, when
      the compiler produced one. */
  function CompileShouts(c: Compiled): seq<Shout>
  {
    if !Succeeded(c.hr) && c.errors.Some? then [Shout(c.errors.value, ShaderError)] else []
  }

  /** compileShader: the compiler fills the shader blob and the error blob;
      on failure the error text is shouted (if there is an error blob), both
      blobs are retired and the HRESULT is thrown; on success only the error
      blob is retired and the shader blob is handed back in its slot. */
  function CompileRun(r: Run, c: Compiled): Run
  {
    if r.status.Failed? then r
    else
      var h1 := if c.code then Acquired(r.handles, Temp(ShaderBlob)) else r.handles;
      var h2 := if c.errors.Some? then Acquired(h1, Temp(ErrorBlob)) else h1;
      if Succeeded(c.hr) then r.(handles := Retired(h2, Temp(ErrorBlob)))
      else Run(Failed(c.hr), Retired(Retired(h2, Temp(ErrorBlob)), Temp(ShaderBlob)), r.shouts + CompileShouts(c), r.buffers)
  }

  /** One block of shaderSetup: compile, create the shader and the input
      layout if the block has one; the blob is retired on every path that
      reaches the creation calls. */
  function StageRun(r: Run, p: Platform, s: Stage): Run
  {
    var r1 := CompileRun(r, p.compile(s.entry));
    if r1.status.Failed? then r1
    else
      var r2 := Create(r1, p, Member(s.shader));
      var r3 := if s.layout.Some? then Create(r2, p, Member(s.layout.value)) else r2;
      Release(r3, Temp(ShaderBlob))
  }

  /** Blocks run in order; the first throw stops the rest. */
  function StagesRun(r: Run, p: Platform, stages: seq<Stage>): Run
    decreases |stages|
  {
    if |stages| == 0 then r else StagesRun(StageRun(r, p, stages[0]), p, stages[1..])
  }

  /** shaderSetup: the five blocks in source order. */
  function ShaderRun(r: Run, p: Platform): Run
  {
    StagesRun(r, p, ShaderStages)
  }

  /** init: deviceSetup, then shaderSetup unless deviceSetup threw. */
  function InitRun(r: Run, p: Platform): Run
  {
    ShaderRun(DeviceRun(r, p), p)
  }

  /** The buffer descriptors of populateVRAM. */
  function SpriteVertDesc(viewHeight: real): BufferDesc
  {
    var quad := StaticGeometry.SpriteQuad(viewHeight);
    BufferDesc(|quad| * StaticGeometry.SpriteVertexBytes, false, SpriteQuadData(quad))
  }

  function InstanceDesc(reserveSprites: nat): BufferDesc
    requires reserveSprites < 0x1_0000_0000
  {
    BufferDesc(StaticGeometry.InstanceBufferBytes(reserveSprites), true, NoData)
  }

  function FontDesc(reserveLetters: nat): BufferDesc
    requires reserveLetters < 0x1_0000_0000
  {
    BufferDesc(StaticGeometry.FontBufferBytes(reserveLetters), true, NoData)
  }

  /** Two XMFLOAT4X4: the perspective and the orthographic projection. */
  const ProjDesc: BufferDesc := BufferDesc(2 * StaticGeometry.Float4x4Bytes, false, ProjectionData)

  const CubeModelDesc: BufferDesc := BufferDesc(StaticGeometry.Float4x4Bytes, true, NoData)

  const CubeVertDesc: BufferDesc :=
    BufferDesc(|StaticGeometry.CubeVertices| * StaticGeometry.CubeVertexBytes, false, CubeVertexData(StaticGeometry.CubeVertices))

  const CubeIdxDesc: BufferDesc :=
    BufferDesc(|StaticGeometry.CubeIndices| * StaticGeometry.IndexBytes, false, IndexData(StaticGeometry.CubeIndices))

  /** The static buffers hold what the draws read: the quad buffer exactly
      the 6 vertices DrawInstanced uses per instance, the index buffer
      exactly the 36 indices DrawIndexed reads, each naming one of the 24
      vertices in the vertex buffer, and the model buffer one matrix. */
  lemma StaticBuffersFitDraws(viewHeight: real)
    ensures SpriteVertDesc(viewHeight).byteWidth == 6 * StaticGeometry.SpriteVertexBytes
    ensures CubeIdxDesc.byteWidth == 36 * StaticGeometry.IndexBytes
    ensures CubeVertDesc.byteWidth == 24 * StaticGeometry.CubeVertexBytes
    ensures forall n | 0 <= n < 36 :: CubeIdxDesc.init.indices[n] < |CubeVertDesc.init.vertices|
    ensures CubeModelDesc.byteWidth == StaticGeometry.Float4x4Bytes
  {
    StaticGeometry.CubeIndicesWellFormed();
  }

  /** populateVRAM: seven buffers and three textures, in source order. */
  function PopulateSteps(viewHeight: real, reserveSprites: nat, reserveLetters: nat): seq<Step>
    requires reserveSprites < 0x1_0000_0000 && reserveLetters < 0x1_0000_0000
  {
    [ Buffer(SpriteVertBuf, SpriteVertDesc(viewHeight)), Buffer(SpriteInstBuf, InstanceDesc(reserveSprites)),
      Buffer(FontVertBuf, FontDesc(reserveLetters)), Buffer(ProjBuf, ProjDesc),
      Object(WoodTexView), Object(FontTexView), Object(HeartTexView),
      Buffer(CubeModelBuf, CubeModelDesc), Buffer(CubeVertBuf, CubeVertDesc), Buffer(CubeIdxBuf, CubeIdxDesc) ]
  }

  /** populateVRAM; the first failure is thrown and stops the rest. */
  function PopulateRun(r: Run, p: Platform, viewHeight: real, reserveSprites: nat, reserveLetters: nat): Run
    requires reserveSprites < 0x1_0000_0000 && reserveLetters < 0x1_0000_0000
  {
    StepsRun(r, p, PopulateSteps(viewHeight, reserveSprites, reserveLetters))
  }

  /** The slots each part of set-up may change. */
  const BlobSlots: set<Slot> := {Temp(ShaderBlob), Temp(ErrorBlob)}

  function StageSlots(s: Stage): set<Slot>
  {
    BlobSlots + {Member(s.shader)} + (if s.layout.Some? then {Member(s.layout.value)} else {})
  }

  function StagesSlots(stages: seq<Stage>): set<Slot>
  {
    if |stages| == 0 then BlobSlots else StageSlots(stages[0]) + StagesSlots(stages[1..])
  }

  /** The member pointers a sequence of steps creates. */
  function StepsSlots(steps: seq<Step>): set<Slot>
  {
    set k | 0 <= k < |steps| :: Member(steps[k].f)
  }

  /** No field is created twice. */
  predicate DistinctFields(steps: seq<Step>)
  {
    forall i, j | 0 <= i < j < |steps| :: steps[i].f != steps[j].f
  }

  const ShaderSlots: set<Slot> := BlobSlots + {
    Member(SpriteVS), Member(SpriteIL), Member(FontVS), Member(CubeVS), Member(CubeIL), Member(PS), Member(CombiPS) }

  const DeviceSlots: set<Slot> := {
    Member(Device), Member(Context), Member(SwapChain), Temp(BackBufferTex), Member(BBufferTarget),
    Member(BlendState), Member(DepthTex), Member(DepthTexView), Member(TexSampler) }

  const PopulateSlots: set<Slot> := {
    Member(SpriteVertBuf), Member(SpriteInstBuf), Member(FontVertBuf), Member(ProjBuf), Member(WoodTexView),
    Member(FontTexView), Member(HeartTexView), Member(CubeModelBuf), Member(CubeVertBuf), Member(CubeIdxBuf) }
}
