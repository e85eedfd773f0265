/** The constant geometry D3DRenderer::populateVRAM uploads once
    (src/d3drenderer.cpp): the sprite quad, the 24 cube vertices and the 36
    cube indices, and the byte sizes of every buffer it creates. */
module StaticGeometry {
  import opened DirectXMath
  import Sprite
  import Cube

  /** The sprite quad: a square of side viewHeight centred on the origin, as
      two triangles, with the whole texture laid over it. */
  function SpriteQuad(viewHeight: real): (q: seq<Sprite.Vertex>)
  {
    var h := viewHeight / 2.0;
    [ Sprite.Vertex(Float2(h, h), Float2(1.0, 1.0)),
      Sprite.Vertex(Float2(h, -h), Float2(1.0, 0.0)),
      Sprite.Vertex(Float2(-h, -h), Float2(0.0, 0.0)),
      Sprite.Vertex(Float2(-h, -h), Float2(0.0, 0.0)),
      Sprite.Vertex(Float2(-h, h), Float2(0.0, 1.0)),
      Sprite.Vertex(Float2(h, h), Float2(1.0, 1.0)) ]
  }

  /** Six vertices; the second triangle closes on the first vertex and starts
      on the third, so both share the diagonal; every corner sits at
      +-viewHeight/2 and the texture coordinate follows the corner (u = 1 on
      the right, vertices 0, 1 and 5; v = 1 at the top, vertices 0, 4 and 5),
      whatever the view height, 0 included. */
  lemma SpriteQuadShape(viewHeight: real)
    ensures var q := SpriteQuad(viewHeight);
      forall k | 0 <= k < 6 ::
        var right := k == 0 || k == 1 || k == 5;
        var top := k == 0 || k == 4 || k == 5;
        && q[k].tex.x == (if right then 1.0 else 0.0)
        && q[k].tex.y == (if top then 1.0 else 0.0)
        && q[k].pos.x == (if right then viewHeight / 2.0 else -viewHeight / 2.0)
        && q[k].pos.y == (if top then viewHeight / 2.0 else -viewHeight / 2.0)
    ensures var q := SpriteQuad(viewHeight);
      && |q| == 6 && q[5] == q[0] && q[3] == q[2]
      && (forall k | 0 <= k < 6 ::
            (q[k].pos.x == viewHeight / 2.0 || q[k].pos.x == -viewHeight / 2.0)
            && (q[k].pos.y == viewHeight / 2.0 || q[k].pos.y == -viewHeight / 2.0)
            && q[k].tex.x * viewHeight == q[k].pos.x + viewHeight / 2.0
            && q[k].tex.y * viewHeight == q[k].pos.y + viewHeight / 2.0)
  {
  }

  function V(x: real, y: real, z: real, u: real, v: real): Cube.Vertex
  {
    Cube.Vertex(Float3(x, y, z), Float2(u, v))
  }

  /** cubeVert: four corners per face, each face with its own texture
      coordinates, faces in the order +y, -y, -x, +x, -z, +z. */
  const CubeVertices: seq<Cube.Vertex> := [
    V(-1.0, 1.0, -1.0, 0.0, 0.0), V(1.0, 1.0, -1.0, 1.0, 0.0), V(1.0, 1.0, 1.0, 1.0, 1.0), V(-1.0, 1.0, 1.0, 0.0, 1.0),
    V(-1.0, -1.0, -1.0, 0.0, 0.0), V(1.0, -1.0, -1.0, 1.0, 0.0), V(1.0, -1.0, 1.0, 1.0, 1.0), V(-1.0, -1.0, 1.0, 0.0, 1.0),
    V(-1.0, -1.0, 1.0, 0.0, 0.0), V(-1.0, -1.0, -1.0, 1.0, 0.0), V(-1.0, 1.0, -1.0, 1.0, 1.0), V(-1.0, 1.0, 1.0, 0.0, 1.0),
    V(1.0, -1.0, 1.0, 0.0, 0.0), V(1.0, -1.0, -1.0, 1.0, 0.0), V(1.0, 1.0, -1.0, 1.0, 1.0), V(1.0, 1.0, 1.0, 0.0, 1.0),
    V(-1.0, -1.0, -1.0, 0.0, 0.0), V(1.0, -1.0, -1.0, 1.0, 0.0), V(1.0, 1.0, -1.0, 1.0, 1.0), V(-1.0, 1.0, -1.0, 0.0, 1.0),
    V(-1.0, -1.0, 1.0, 0.0, 0.0), V(1.0, -1.0, 1.0, 1.0, 0.0), V(1.0, 1.0, 1.0, 1.0, 1.0), V(-1.0, 1.0, 1.0, 0.0, 1.0)
  ]

  /** cubeIdx: two triangles per face. */
  const CubeIndices: seq<nat> := [
    3, 1, 0, 2, 1, 3,
    6, 4, 5, 7, 4, 6,
    11, 9, 8, 10, 9, 11,
    14, 12, 13, 15, 12, 14,
    19, 17, 16, 18, 17, 19,
    22, 20, 21, 23, 20, 22
  ]

  /** Coordinate a (0 = x, 1 = y, 2 = z) of a cube vertex. */
  function Coord(v: Cube.Vertex, a: nat): real
    requires a < 3
  {
    if a == 0 then v.pos.x else if a == 1 then v.pos.y else v.pos.z
  }

  /** The axis face k is perpendicular to, and the side it lies on. */
  function FaceAxis(k: nat): nat
    requires k < 6
  {
    if k < 2 then 1 else if k < 4 then 0 else 2
  }

  function FaceSide(k: nat): real
    requires k < 6
  {
    if k == 0 || k == 3 || k == 5 then 1.0 else -1.0
  }

  /** The index table draws 12 triangles over the 24 vertices; the k-th group
      of six indices (entries 6k..6k+5) points only into vertices 4k..4k+3. */
  lemma CubeIndicesWellFormed()
    ensures |CubeVertices| == 24 && |CubeIndices| == 36
    ensures forall n | 0 <= n < 36 :: CubeIndices[n] < 24 && CubeIndices[n] / 4 == n / 6
  {
  }

  /** Entry i of the k-th group of six indices. */
  function FaceIndex(k: nat, i: nat): nat
    requires k < 6 && i < 6
  {
    CubeIndices[6 * k + i]
  }

  /** Each group of six is two triangles sharing an edge: the second
      triangle's last two indices are the first triangle's first two, taken in
      reverse. The group's first four entries are distinct, so with the lemma
      above they are the face's four vertices, each used. */
  lemma CubeFacesCovered()
    ensures forall k | 0 <= k < 6 ::
      && FaceIndex(k, 4) == FaceIndex(k, 1) && FaceIndex(k, 5) == FaceIndex(k, 0)
      && FaceIndex(k, 0) != FaceIndex(k, 1) && FaceIndex(k, 0) != FaceIndex(k, 2) && FaceIndex(k, 0) != FaceIndex(k, 3)
      && FaceIndex(k, 1) != FaceIndex(k, 2) && FaceIndex(k, 1) != FaceIndex(k, 3) && FaceIndex(k, 2) != FaceIndex(k, 3)
  {
  }

  /** Each face is flat: its four vertices share one coordinate, +1 or -1. */
  lemma CubeFacesFlat()
    ensures forall c | 0 <= c < 24 :: Coord(CubeVertices[c], FaceAxis(c / 4)) == FaceSide(c / 4)
  {
  }

  /** Every coordinate is +-1 and every texture coordinate a corner of the
      unit square. */
  lemma CubeCornersUnit()
    ensures forall c | 0 <= c < 24 ::
      && (forall a | 0 <= a < 3 :: Coord(CubeVertices[c], a) == 1.0 || Coord(CubeVertices[c], a) == -1.0)
      && (CubeVertices[c].tex.x == 0.0 || CubeVertices[c].tex.x == 1.0)
      && (CubeVertices[c].tex.y == 0.0 || CubeVertices[c].tex.y == 1.0)
  {
  }

  /** No two vertices of a face share a position or a texture coordinate.
      That is why corners are repeated across faces. */
  lemma CubeFaceCornersDistinct()
    ensures forall c, d | 0 <= c < d < 24 && c / 4 == d / 4 ::
      CubeVertices[c].pos != CubeVertices[d].pos && CubeVertices[c].tex != CubeVertices[d].tex
  {
  }

  /** sizeof of the records the buffers hold, in bytes. */
  const SpriteVertexBytes: nat := 16   // two XMFLOAT2
  const InstanceBytes: nat := 36       // one XMFLOAT3X3
  const CubeVertexBytes: nat := 20     // XMFLOAT3 and XMFLOAT2
  const Float4x4Bytes: nat := 64
  const IndexBytes: nat := 2           // unsigned short

  /** D3D11_BUFFER_DESC::ByteWidth is a 32-bit UINT: a larger size_t product
      is cut to its low 32 bits. */
  function ToUint(n: nat): (r: nat)
    ensures r < 0x1_0000_0000 && (n < 0x1_0000_0000 ==> r == n)
  {
    n % 0x1_0000_0000
  }

  /** ByteWidth of the sprite instance buffer. */
  function InstanceBufferBytes(reserveSprites: nat): (b: nat)
    requires reserveSprites < 0x1_0000_0000
    ensures reserveSprites * InstanceBytes < 0x1_0000_0000 ==> b == reserveSprites * InstanceBytes
  {
    ToUint(reserveSprites * InstanceBytes)
  }

  /** ByteWidth of the font vertex buffer: six vertices per letter. */
  function FontBufferBytes(reserveLetters: nat): (b: nat)
    requires reserveLetters < 0x1_0000_0000
    ensures reserveLetters * 6 * SpriteVertexBytes < 0x1_0000_0000 ==>
      b == reserveLetters * 6 * SpriteVertexBytes
  {
    ToUint(reserveLetters * 6 * SpriteVertexBytes)
  }

  /** Reservations that fit in 32 bits: the instance buffer holds exactly
      reserveSprites instances and the font buffer exactly reserveLetters
      glyph quads. */
  lemma {:induction false} ReservationsFit(reserveSprites: nat, reserveLetters: nat)
    requires reserveSprites * InstanceBytes < 0x1_0000_0000
    requires reserveLetters * 6 * SpriteVertexBytes < 0x1_0000_0000
    ensures forall n: nat :: n * InstanceBytes <= InstanceBufferBytes(reserveSprites) <==> n <= reserveSprites
    ensures forall n: nat :: n * 6 * SpriteVertexBytes <= FontBufferBytes(reserveLetters) <==> n <= reserveLetters
  {
  }
}
