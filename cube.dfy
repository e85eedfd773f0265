/** Cube::Data (src/cube.h, src/cube.cpp): a cube's transform record. */
module Cube {
  import opened DirectXMath

  /** Cube::Vertex: a 3D position and a texture coordinate. */
  datatype Vertex = Vertex(pos: Float3, tex: Float2)

  class Data {
    var position: Float3
    var rotation: Float3
    var scale: Float3

    constructor (pos: Float3, rot: Float3, scl: Float3)
      ensures position == pos && rotation == rot && scale == scl
    {
      position, rotation, scale := pos, rot, scl;
    }

    /** The roll-pitch-yaw rotation the library builds from `rotation`. */
    function Rotation(lib: MathLib): Mat4
      reads this
    {
      lib.rotationRollPitchYaw(LoadFloat3(rotation))
    }

    /** getWorldMatrix: transpose((scale * rotate) * translate). Whenever the
        library's rotation leaves w alone, the result hands back the three
        fields: the position as the fourth column, the rotation's rows scaled
        by the scale factors (transposed) in the upper 3x3. */
    function GetWorldMatrix(lib: MathLib): (w: Mat4)
      reads this
      ensures IsLinear3(Rotation(lib)) ==>
        Recovers(w, LoadFloat3(scale), Rotation(lib), LoadFloat3(position))
    {
      var translate := Translation(LoadFloat3(position));
      var rotate := lib.rotationRollPitchYaw(LoadFloat3(rotation));
      var scaling := Scaling(LoadFloat3(scale));
      var world := MultiplyTranspose(Multiply(scaling, rotate), translate);
      if IsLinear3(rotate) then
        ScaleRotateTranslateTransposed(LoadFloat3(scale), rotate, LoadFloat3(position));
        world
      else
        world
    }

    /** getPosition: the position loaded into a vector, w lane zero. */
    function GetPosition(): (v: Vector)
      reads this
      ensures StoreFloat3(v) == position && v.w == 0.0
    {
      LoadFloat3(position)
    }

    function GetRotation(): (v: Vector)
      reads this
      ensures StoreFloat3(v) == rotation && v.w == 0.0
    {
      LoadFloat3(rotation)
    }

    function GetScale(): (v: Vector)
      reads this
      ensures StoreFloat3(v) == scale && v.w == 0.0
    {
      LoadFloat3(scale)
    }

    /** setPosition(XMFLOAT3): replaces the position, returns this object. */
    method SetPosition(other: Float3) returns (self: Data)
      modifies this
      ensures self == this
      ensures position == other && rotation == old(rotation) && scale == old(scale)
    {
      position := other;
      self := this;
    }

    /** setPosition(XMVECTOR): stores lanes x, y, z; the w lane is dropped. */
    method SetPositionVector(other: Vector) returns (self: Data)
      modifies this
      ensures self == this
      ensures position == StoreFloat3(other) && rotation == old(rotation) && scale == old(scale)
    {
      position := StoreFloat3(other);
      self := this;
    }

    method SetRotation(other: Float3) returns (self: Data)
      modifies this
      ensures self == this
      ensures rotation == other && position == old(position) && scale == old(scale)
    {
      rotation := other;
      self := this;
    }

    method SetRotationVector(other: Vector) returns (self: Data)
      modifies this
      ensures self == this
      ensures rotation == StoreFloat3(other) && position == old(position) && scale == old(scale)
    {
      rotation := StoreFloat3(other);
      self := this;
    }

    method SetScale(other: Float3) returns (self: Data)
      modifies this
      ensures self == this
      ensures scale == other && position == old(position) && rotation == old(rotation)
    {
      scale := other;
      self := this;
    }

    method SetScaleVector(other: Vector) returns (self: Data)
      modifies this
      ensures self == this
      ensures scale == StoreFloat3(other) && position == old(position) && rotation == old(rotation)
    {
      scale := StoreFloat3(other);
      self := this;
    }
  }
}
