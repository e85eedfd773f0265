/** What the renderer's per-frame paths hand to the device context
    (src/d3drenderer.cpp:524-679), as a trace of events. The many pipeline
    state calls a render path makes before drawing (input layout, vertex and
    index buffers, topology, shaders, constant buffers, viewport, shader
    resources, sampler, render targets, blend state) are one `Bind` event
    naming the path. */
module Frame {
  import opened DirectXMath
  import Sprite
  import Resources

  /** The pipeline configuration each render path binds. */
  datatype Pass = CubePass | SpritePass | FontPass

  /** std::array<float, 4>: the clear colour. */
  datatype Rgba = Rgba(r: real, g: real, b: real, a: real)

  datatype Event =
    | ClearTarget(color: Rgba)                 // ClearRenderTargetView
    | ClearDepth(depth: real)                  // ClearDepthStencilView, D3D11_CLEAR_DEPTH
    | Bind(pass: Pass)
    | MapDiscard(buffer: Resources.Field)      // Map(..., D3D11_MAP_WRITE_DISCARD, ...)
    | WriteMatrix(model: Mat4)                 // memcpy of one XMFLOAT4X4
    | WriteInstances(instances: seq<Sprite.Instance>)
    | WriteVertices(vertices: seq<Sprite.Vertex>)
    | Unmap(buffer: Resources.Field)
    | DrawIndexed(indexCount: nat, startIndex: nat, baseVertex: int)
    | DrawInstanced(vertexCount: nat, instanceCount: nat, startVertex: nat, startInstance: nat)
    | Draw(vertexCount: nat, startVertex: nat)
    | Present(syncInterval: nat, flags: nat)

  /** One iteration of renderCube's loop: rewrite the model constant buffer
      with the cube's world matrix, then draw the 36 cube indices. */
  function CubeDraw(model: Mat4): seq<Event>
  {
    [MapDiscard(Resources.CubeModelBuf), WriteMatrix(model), Unmap(Resources.CubeModelBuf), DrawIndexed(36, 0, 0)]
  }

  /** The loop of renderCube over a list of world matrices, in order. */
  function CubeEvents(models: seq<Mat4>): seq<Event>
  {
    if |models| == 0 then [] else CubeEvents(models[..|models| - 1]) + CubeDraw(models[|models| - 1])
  }

  /** One more cube adds its draw at the end. */
  lemma CubeEventsSnoc(models: seq<Mat4>, m: Mat4)
    ensures CubeEvents(models + [m]) == CubeEvents(models) + CubeDraw(m)
  {
    assert (models + [m])[..|models|] == models;
  }

  /** renderSprites after its instance list is built: one upload of the whole
      list, the sprite pipeline, one instanced draw of the 6-vertex quad. */
  function SpriteEvents(instances: seq<Sprite.Instance>, count: nat): seq<Event>
  {
    [ MapDiscard(Resources.SpriteInstBuf), WriteInstances(instances), Unmap(Resources.SpriteInstBuf),
      Bind(SpritePass), DrawInstanced(6, count, 0, 0) ]
  }

  /** renderString after its vertex list is built: one upload, the font
      pipeline, one draw of every vertex. */
  function FontEvents(vertices: seq<Sprite.Vertex>): seq<Event>
  {
    [ MapDiscard(Resources.FontVertBuf), WriteVertices(vertices), Unmap(Resources.FontVertBuf),
      Bind(FontPass), Draw(|vertices|, 0) ]
  }

  /** The matrices written into mapped buffers, in trace order. */
  function MatrixWrites(trace: seq<Event>): seq<Mat4>
  {
    if |trace| == 0 then []
    else
      var last := trace[|trace| - 1];
      MatrixWrites(trace[..|trace| - 1]) + (if last.WriteMatrix? then [last.model] else [])
  }

  /** The number of indexed draws in a trace. */
  function IndexedDraws(trace: seq<Event>): nat
  {
    if |trace| == 0 then 0
    else IndexedDraws(trace[..|trace| - 1]) + (if trace[|trace| - 1].DrawIndexed? then 1 else 0)
  }

  lemma MatrixWritesOne(e: Event)
    ensures MatrixWrites([e]) == (if e.WriteMatrix? then [e.model] else [])
    ensures IndexedDraws([e]) == (if e.DrawIndexed? then 1 else 0)
  {
    assert [e][..0] == [];
  }

  lemma {:induction false} MatrixWritesAppend(a: seq<Event>, b: seq<Event>)
    ensures MatrixWrites(a + b) == MatrixWrites(a) + MatrixWrites(b)
    ensures IndexedDraws(a + b) == IndexedDraws(a) + IndexedDraws(b)
    decreases |b|
  {
    if |b| == 0 {
      assert a + b == a;
    } else {
      var b' := b[..|b| - 1];
      MatrixWritesAppend(a, b');
      assert (a + b)[..|a + b| - 1] == a + b';
    }
  }

  /** Four events per cube, and event 4k + j is step j of cube k's draw. */
  lemma {:induction false} CubeEventsAt(models: seq<Mat4>, k: nat, j: nat)
    requires k < |models| && j < 4
    ensures |CubeEvents(models)| == 4 * |models|
    ensures CubeEvents(models)[4 * k + j] == CubeDraw(models[k])[j]
  {
    var init := models[..|models| - 1];
    if k < |models| - 1 {
      CubeEventsAt(init, k, j);
    } else if |models| > 1 {
      CubeEventsAt(init, 0, 0);
    }
  }

  /** renderCube writes the model buffer with exactly the given matrices, in
      order and nothing else, and issues one indexed draw per cube. */
  lemma {:induction false} CubeEventsWrites(models: seq<Mat4>)
    ensures MatrixWrites(CubeEvents(models)) == models
    ensures IndexedDraws(CubeEvents(models)) == |models|
  {
    if |models| > 0 {
      var init := models[..|models| - 1];
      var m := models[|models| - 1];
      CubeEventsWrites(init);
      MatrixWritesAppend(CubeEvents(init), CubeDraw(m));
      var d := CubeDraw(m);
      assert d == [d[0]] + [d[1]] + [d[2]] + [d[3]];
      MatrixWritesOne(d[0]); MatrixWritesOne(d[1]); MatrixWritesOne(d[2]); MatrixWritesOne(d[3]);
      MatrixWritesAppend([d[0]], [d[1]]);
      MatrixWritesAppend([d[0]] + [d[1]], [d[2]]);
      MatrixWritesAppend([d[0]] + [d[1]] + [d[2]], [d[3]]);
      assert init + [m] == models;
    }
  }

  /** Every event of a cube loop is a step of some cube's draw: there is no
      other kind of write or draw. */
  lemma {:induction false} CubeEventsOnly(models: seq<Mat4>, n: nat)
    requires n < 4 * |models|
    ensures n < |CubeEvents(models)| && CubeEvents(models)[n] in CubeDraw(models[n / 4])
  {
    CubeEventsAt(models, 0, 0);
    CubeEventsAt(models, n / 4, n % 4);
  }
}
