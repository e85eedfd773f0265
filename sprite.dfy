/** Sprite::Data (src/sprite.h, src/sprite.cpp): a sprite's 2D transform
    record, and the vertex and instance records the sprite and text paths
    share. */
module Sprite {
  import opened DirectXMath

  /** Sprite::Vertex: a 2D position and a texture coordinate. */
  datatype Vertex = Vertex(pos: Float2, tex: Float2)

  /** Sprite::Instance: one 3x3 model matrix per drawn sprite. */
  type Instance = Mat3

  /** The zero vector `{ 0.0f, 0.0f }` passed as both origins. */
  const Zeroes: Vector := Vector(0.0, 0.0, 0.0, 0.0)

  /** Picks rows and columns 1, 2 and 4 of a 4x4: `_11 _12 _14 / _21 _22 _24 /
      _41 _42 _44`. */
  function SelectPlane(t: Mat4): (r: Mat3)
    ensures forall i, j | 0 <= i < 3 && 0 <= j < 3 :: r[i][j] == t[Plane(i)][Plane(j)]
  {
    [[t[0][0], t[0][1], t[0][3]],
     [t[1][0], t[1][1], t[1][3]],
     [t[3][0], t[3][1], t[3][3]]]
  }

  /** Reducing the transposed 4x4 keeps its action on the plane: the 3x3
      applied to the column (x, y, 1) gives lanes 1, 2 and 4 of the 4x4
      applied, in DirectXMath's row convention, to (x, y, 0, 1). */
  lemma {:induction false} SelectPlaneActsAsTransform(m: Mat4, x: real, y: real)
    ensures var r := Apply3(SelectPlane(Transpose(m)), x, y);
      var full := ApplyRow4(m, x, y);
      r[0] == full[0] && r[1] == full[1] && r[2] == full[3]
  {
    var s := SelectPlane(Transpose(m));
    assert s[0] == [m[0][0], m[1][0], m[3][0]];
    assert s[1] == [m[0][1], m[1][1], m[3][1]];
    assert s[2] == [m[0][3], m[1][3], m[3][3]];
  }

  class Data {
    var position: Float2
    var rotation: real
    var scale: Float2

    constructor (pos: Float2, rot: real, scl: Float2)
      ensures position == pos && rotation == rot && scale == scl
    {
      position, rotation, scale := pos, rot, scl;
    }

    /** The library's 2D transformation for this sprite: scaling centre at the
        origin, scaling orientation 0, scale `scale`, rotation about the
        origin by `rotation`, then translation by `position`. */
    function Transformation(lib: MathLib): Mat4
      reads this
    {
      lib.transformation2D(Zeroes, 0.0, LoadFloat2(scale), Zeroes, rotation, LoadFloat2(position))
    }

    /** getWorldMatrix: entry (i, j) is entry (j', i') of the transformation,
        where 1, 2, 3 map to 1, 2, 4; so it acts on (x, y, 1) as the
        transformation acts on the point (x, y). */
    function GetWorldMatrix(lib: MathLib): (w: Instance)
      reads this
      ensures forall i, j | 0 <= i < 3 && 0 <= j < 3 ::
        w[i][j] == Transformation(lib)[Plane(j)][Plane(i)]
    {
      var simdTmp := lib.transformation2D(Zeroes, 0.0, LoadFloat2(scale), Zeroes, rotation, LoadFloat2(position));
      SelectPlane(Transpose(simdTmp))
    }

    /** getPosition: the position loaded into a vector, z and w lanes zero. */
    function GetPosition(): (v: Vector)
      reads this
      ensures StoreFloat2(v) == position && v.z == 0.0 && v.w == 0.0
    {
      LoadFloat2(position)
    }

    /** getRotation: the angle, exactly as stored. */
    function GetRotation(): (r: real)
      reads this
      ensures r == rotation
    {
      rotation
    }

    function GetScale(): (v: Vector)
      reads this
      ensures StoreFloat2(v) == scale && v.z == 0.0 && v.w == 0.0
    {
      LoadFloat2(scale)
    }

    method SetPosition(other: Float2) returns (self: Data)
      modifies this
      ensures self == this
      ensures position == other && rotation == old(rotation) && scale == old(scale)
    {
      position := other;
      self := this;
    }

    /** setPosition(XMVECTOR): stores lanes x and y; z and w are dropped. */
    method SetPositionVector(other: Vector) returns (self: Data)
      modifies this
      ensures self == this
      ensures position == StoreFloat2(other) && rotation == old(rotation) && scale == old(scale)
    {
      position := StoreFloat2(other);
      self := this;
    }

    method SetRotation(other: real) returns (self: Data)
      modifies this
      ensures self == this
      ensures rotation == other && position == old(position) && scale == old(scale)
    {
      rotation := other;
      self := this;
    }

    method SetScale(other: Float2) returns (self: Data)
      modifies this
      ensures self == this
      ensures scale == other && position == old(position) && rotation == old(rotation)
    {
      scale := other;
      self := this;
    }

    method SetScaleVector(other: Vector) returns (self: Data)
      modifies this
      ensures self == this
      ensures scale == StoreFloat2(other) && position == old(position) && rotation == old(rotation)
    {
      scale := StoreFloat2(other);
      self := this;
    }
  }
}
