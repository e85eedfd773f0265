/** The slice of DirectXMath the renderer relies on, over exact reals.

    Vectors and matrices are plain values. Matrix product, transpose, scaling
    and translation are written out; the two library calls that involve
    trigonometry (the roll-pitch-yaw rotation and the 2D transformation) are
    supplied by the caller as a `MathLib` record and stay uninterpreted.
    Float rounding is not modelled. */
module DirectXMath {

  /** XMFLOAT2 */
  datatype Float2 = Float2(x: real, y: real)

  /** XMFLOAT3 */
  datatype Float3 = Float3(x: real, y: real, z: real)

  /** XMVECTOR: four lanes. */
  datatype Vector = Vector(x: real, y: real, z: real, w: real)

  /** XMLoadFloat2: the two stored lanes, zero in z and w. */
  function LoadFloat2(f: Float2): (v: Vector)
    ensures StoreFloat2(v) == f && v.z == 0.0 && v.w == 0.0
  {
    Vector(f.x, f.y, 0.0, 0.0)
  }

  /** XMLoadFloat3: the three stored lanes, zero in w. */
  function LoadFloat3(f: Float3): (v: Vector)
    ensures StoreFloat3(v) == f && v.w == 0.0
  {
    Vector(f.x, f.y, f.z, 0.0)
  }

  /** XMStoreFloat2: keeps lanes x and y only. */
  function StoreFloat2(v: Vector): Float2
  {
    Float2(v.x, v.y)
  }

  /** XMStoreFloat3: keeps lanes x, y and z only. */
  function StoreFloat3(v: Vector): Float3
  {
    Float3(v.x, v.y, v.z)
  }

  /** Lane i (0-based) of a vector. */
  function Lane(v: Vector, i: nat): real
    requires i < 4
  {
    if i == 0 then v.x else if i == 1 then v.y else if i == 2 then v.z else v.w
  }

  predicate IsSquare(m: seq<seq<real>>, n: nat)
  {
    |m| == n && forall i | 0 <= i < n :: |m[i]| == n
  }

  /** XMMATRIX / XMFLOAT4X4: row-major, entry m[r][c] is `_{r+1}{c+1}`. */
  type Mat4 = m: seq<seq<real>> | IsSquare(m, 4)
    witness [[0.0, 0.0, 0.0, 0.0], [0.0, 0.0, 0.0, 0.0], [0.0, 0.0, 0.0, 0.0], [0.0, 0.0, 0.0, 0.0]]

  /** XMFLOAT3X3 */
  type Mat3 = m: seq<seq<real>> | IsSquare(m, 3)
    witness [[0.0, 0.0, 0.0], [0.0, 0.0, 0.0], [0.0, 0.0, 0.0]]

  /** The library calls whose values rest on trigonometry. */
  datatype MathLib = MathLib(
    /** XMMatrixRotationRollPitchYawFromVector(angles) */
    rotationRollPitchYaw: Vector -> Mat4,
    /** XMMatrixTransformation2D(scalingOrigin, scalingOrientation, scaling,
        rotationOrigin, rotation, translation) */
    transformation2D: (Vector, real, Vector, Vector, real, Vector) -> Mat4
  )

  /** XMMatrixMultiply: the product a * b. */
  function Multiply(a: Mat4, b: Mat4): (p: Mat4)
    ensures forall r, c | 0 <= r < 4 && 0 <= c < 4 ::
      p[r][c] == a[r][0] * b[0][c] + a[r][1] * b[1][c] + a[r][2] * b[2][c] + a[r][3] * b[3][c]
  {
    seq(4, r requires 0 <= r < 4 => seq(4, c requires 0 <= c < 4 =>
      a[r][0] * b[0][c] + a[r][1] * b[1][c] + a[r][2] * b[2][c] + a[r][3] * b[3][c]))
  }

  /** XMMatrixTranspose */
  function Transpose(m: Mat4): (t: Mat4)
    ensures forall r, c | 0 <= r < 4 && 0 <= c < 4 :: t[r][c] == m[c][r]
  {
    seq(4, r requires 0 <= r < 4 => seq(4, c requires 0 <= c < 4 => m[c][r]))
  }

  /** XMMatrixMultiplyTranspose: the transpose of the product a * b. */
  function MultiplyTranspose(a: Mat4, b: Mat4): Mat4
  {
    Transpose(Multiply(a, b))
  }

  /** XMMatrixScalingFromVector: diag(v.x, v.y, v.z, 1). */
  function Scaling(v: Vector): (s: Mat4)
    ensures forall r, c | 0 <= r < 4 && 0 <= c < 4 ::
      s[r][c] == (if r != c then 0.0 else if r == 3 then 1.0 else Lane(v, r))
  {
    [[v.x, 0.0, 0.0, 0.0],
     [0.0, v.y, 0.0, 0.0],
     [0.0, 0.0, v.z, 0.0],
     [0.0, 0.0, 0.0, 1.0]]
  }

  /** XMMatrixTranslationFromVector: the identity with (v.x, v.y, v.z, 1) as
      its fourth row (row vectors are multiplied on the left). */
  function Translation(v: Vector): (t: Mat4)
    ensures forall r, c | 0 <= r < 3 && 0 <= c < 4 :: t[r][c] == (if r == c then 1.0 else 0.0)
    ensures forall c | 0 <= c < 3 :: t[3][c] == Lane(v, c)
    ensures t[3][3] == 1.0
  {
    [[1.0, 0.0, 0.0, 0.0],
     [0.0, 1.0, 0.0, 0.0],
     [0.0, 0.0, 1.0, 0.0],
     [v.x, v.y, v.z, 1.0]]
  }

  /** A 4x4 that acts on the first three coordinates only: its fourth row and
      fourth column are those of the identity (as a rotation matrix is). */
  predicate IsLinear3(m: Mat4)
  {
    m[3] == [0.0, 0.0, 0.0, 1.0] && m[0][3] == 0.0 && m[1][3] == 0.0 && m[2][3] == 0.0
  }

  /** w is the column-major form of "scale by s, apply rot, translate by t":
      column 4 holds t, row 4 is (0, 0, 0, 1), and entry (i, j) of the upper
      3x3 is entry (j, i) of rot scaled by lane j of s. */
  predicate Recovers(w: Mat4, s: Vector, rot: Mat4, t: Vector)
  {
    && (forall i, j | 0 <= i < 3 && 0 <= j < 3 :: w[i][j] == Lane(s, j) * rot[j][i])
    && (forall i | 0 <= i < 3 :: w[i][3] == Lane(t, i) && w[3][i] == 0.0)
    && w[3][3] == 1.0
  }

  /** The world matrix `transpose((S * R) * T)` takes apart into its three
      ingredients whenever R leaves w alone: the stored matrix is column-major,
      so the translation sits in the fourth column and the scaled rotation,
      transposed, in the upper-left 3x3. */
  lemma {:induction false} ScaleRotateTranslateTransposed(s: Vector, rot: Mat4, t: Vector)
    requires IsLinear3(rot)
    ensures Recovers(MultiplyTranspose(Multiply(Scaling(s), rot), Translation(t)), s, rot, t)
  {
    var sr := Multiply(Scaling(s), rot);
    ScaledEntries(s, rot, sr);
    var p := Multiply(sr, Translation(t));
    TranslatedEntries(sr, t, p);
    RecoversFromEntries(s, rot, t, sr, p);
  }

  /** Recovers, from the entries ScaledEntries and TranslatedEntries give. */
  lemma RecoversFromEntries(s: Vector, rot: Mat4, t: Vector, sr: Mat4, p: Mat4)
    requires IsLinear3(rot)
    requires forall c | 0 <= c < 4 ::
      && sr[0][c] == s.x * rot[0][c] && sr[1][c] == s.y * rot[1][c]
      && sr[2][c] == s.z * rot[2][c] && sr[3][c] == rot[3][c]
    requires forall r | 0 <= r < 4 ::
      && p[r][0] == sr[r][0] + sr[r][3] * t.x && p[r][1] == sr[r][1] + sr[r][3] * t.y
      && p[r][2] == sr[r][2] + sr[r][3] * t.z && p[r][3] == sr[r][3]
    ensures Recovers(Transpose(p), s, rot, t)
  {
    ScaledRowsKeepW(s, rot, sr, t, p);
    assert sr[3] == rot[3] == [0.0, 0.0, 0.0, 1.0];
    OneTimes(sr[3][3], t.x);
    OneTimes(sr[3][3], t.y);
    OneTimes(sr[3][3], t.z);
    UpperRecovered(s, rot, sr, p);
    ColumnRecovered(t, p);
  }

  /** The fourth column of the transposed product is the translation. */
  lemma ColumnRecovered(t: Vector, p: Mat4)
    requires p[0][3] == 0.0 && p[1][3] == 0.0 && p[2][3] == 0.0
    requires p[3][0] == t.x && p[3][1] == t.y && p[3][2] == t.z && p[3][3] == 1.0
    ensures forall i | 0 <= i < 3 :: Transpose(p)[i][3] == Lane(t, i) && Transpose(p)[3][i] == 0.0
    ensures Transpose(p)[3][3] == 1.0
  {
  }

  /** The first three rows of the scaled rotation end in 0, so translating
      leaves them as they were. */
  lemma ScaledRowsKeepW(s: Vector, rot: Mat4, sr: Mat4, t: Vector, p: Mat4)
    requires rot[0][3] == 0.0 && rot[1][3] == 0.0 && rot[2][3] == 0.0
    requires sr[0][3] == s.x * rot[0][3] && sr[1][3] == s.y * rot[1][3] && sr[2][3] == s.z * rot[2][3]
    requires forall r | 0 <= r < 4 ::
      && p[r][0] == sr[r][0] + sr[r][3] * t.x && p[r][1] == sr[r][1] + sr[r][3] * t.y
      && p[r][2] == sr[r][2] + sr[r][3] * t.z && p[r][3] == sr[r][3]
    ensures forall j | 0 <= j < 3 :: p[j][0] == sr[j][0] && p[j][1] == sr[j][1] && p[j][2] == sr[j][2] && p[j][3] == 0.0
  {
    ZeroTimes(rot[0][3], s.x);
    ZeroTimes(rot[1][3], s.y);
    ZeroTimes(rot[2][3], s.z);
    forall j | 0 <= j < 3 ensures p[j][0] == sr[j][0] && p[j][1] == sr[j][1] && p[j][2] == sr[j][2] && p[j][3] == 0.0 {
      ZeroTimes(sr[j][3], t.x);
      ZeroTimes(sr[j][3], t.y);
      ZeroTimes(sr[j][3], t.z);
    }
  }

  /** The upper-left 3x3 of the transposed product is the scaled rotation,
      transposed. */
  lemma UpperRecovered(s: Vector, rot: Mat4, sr: Mat4, p: Mat4)
    requires forall c | 0 <= c < 4 ::
      && sr[0][c] == s.x * rot[0][c] && sr[1][c] == s.y * rot[1][c]
      && sr[2][c] == s.z * rot[2][c]
    requires forall j | 0 <= j < 3 :: p[j][0] == sr[j][0] && p[j][1] == sr[j][1] && p[j][2] == sr[j][2]
    ensures forall i, j | 0 <= i < 3 && 0 <= j < 3 :: Transpose(p)[i][j] == Lane(s, j) * rot[j][i]
  {
    var w := Transpose(p);
    forall i, j | 0 <= i < 3 && 0 <= j < 3 ensures w[i][j] == Lane(s, j) * rot[j][i] {
      assert w[i][j] == p[j][i];
    }
  }

  lemma OneTimes(a: real, b: real)
    requires a == 1.0
    ensures a * b == b
  {
  }

  lemma ZeroTimes(a: real, b: real)
    requires a == 0.0
    ensures a * b == 0.0 && b * a == 0.0
  {
  }

  /** Scaling first multiplies row r of m by lane r of s. */
  lemma ScaledEntries(s: Vector, m: Mat4, sm: Mat4)
    requires sm == Multiply(Scaling(s), m)
    ensures forall c | 0 <= c < 4 ::
      && sm[0][c] == s.x * m[0][c] && sm[1][c] == s.y * m[1][c]
      && sm[2][c] == s.z * m[2][c] && sm[3][c] == m[3][c]
  {
    forall c | 0 <= c < 4
      ensures sm[0][c] == s.x * m[0][c] && sm[1][c] == s.y * m[1][c]
      ensures sm[2][c] == s.z * m[2][c] && sm[3][c] == m[3][c]
    {
      var sc := Scaling(s);
      assert sc == [[s.x, 0.0, 0.0, 0.0], [0.0, s.y, 0.0, 0.0], [0.0, 0.0, s.z, 0.0], [0.0, 0.0, 0.0, 1.0]];
      assert sm[0][c] == s.x * m[0][c] + 0.0 * m[1][c] + 0.0 * m[2][c] + 0.0 * m[3][c];
      assert sm[1][c] == 0.0 * m[0][c] + s.y * m[1][c] + 0.0 * m[2][c] + 0.0 * m[3][c];
      assert sm[2][c] == 0.0 * m[0][c] + 0.0 * m[1][c] + s.z * m[2][c] + 0.0 * m[3][c];
      assert sm[3][c] == 0.0 * m[0][c] + 0.0 * m[1][c] + 0.0 * m[2][c] + 1.0 * m[3][c];
    }
  }

  /** Translating afterwards adds lane c of t, weighted by the fourth
      column, to every column c but the fourth. */
  lemma TranslatedEntries(m: Mat4, t: Vector, mt: Mat4)
    requires mt == Multiply(m, Translation(t))
    ensures forall r | 0 <= r < 4 ::
      && mt[r][0] == m[r][0] + m[r][3] * t.x && mt[r][1] == m[r][1] + m[r][3] * t.y
      && mt[r][2] == m[r][2] + m[r][3] * t.z && mt[r][3] == m[r][3]
  {
    forall r | 0 <= r < 4
      ensures mt[r][0] == m[r][0] + m[r][3] * t.x && mt[r][1] == m[r][1] + m[r][3] * t.y
      ensures mt[r][2] == m[r][2] + m[r][3] * t.z && mt[r][3] == m[r][3]
    {
      var tr := Translation(t);
      assert tr == [[1.0, 0.0, 0.0, 0.0], [0.0, 1.0, 0.0, 0.0], [0.0, 0.0, 1.0, 0.0], [t.x, t.y, t.z, 1.0]];
      assert mt[r][0] == m[r][0] * 1.0 + m[r][1] * 0.0 + m[r][2] * 0.0 + m[r][3] * t.x;
      assert mt[r][1] == m[r][0] * 0.0 + m[r][1] * 1.0 + m[r][2] * 0.0 + m[r][3] * t.y;
      assert mt[r][2] == m[r][0] * 0.0 + m[r][1] * 0.0 + m[r][2] * 1.0 + m[r][3] * t.z;
      assert mt[r][3] == m[r][0] * 0.0 + m[r][1] * 0.0 + m[r][2] * 0.0 + m[r][3] * 1.0;
    }
  }

  /** Rows and columns 1, 2 and 4 of a 4x4, the homogeneous 2D part. */
  function Plane(k: nat): nat
    requires k < 3
  {
    if k == 2 then 3 else k
  }

  /** Applies a 3x3 to the column vector (x, y, 1). */
  function Apply3(m: Mat3, x: real, y: real): (v: seq<real>)
    ensures |v| == 3
  {
    seq(3, i requires 0 <= i < 3 => m[i][0] * x + m[i][1] * y + m[i][2])
  }

  /** Applies a 4x4 to the row vector (x, y, 0, 1), the DirectXMath convention. */
  function ApplyRow4(m: Mat4, x: real, y: real): (v: seq<real>)
    ensures |v| == 4
  {
    seq(4, c requires 0 <= c < 4 => x * m[0][c] + y * m[1][c] + m[3][c])
  }
}
