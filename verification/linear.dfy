/** Plain value types standing for the three.js vectors, matrices, colours and
    Euler angles the renderer stores, and the record of three.js numerics
    (trigonometry, square roots, colour parsing) that the model leaves
    uninterpreted. */
module Linear {

  datatype Vec2 = Vec2(x: real, y: real)

  datatype Vec3 = Vec3(x: real, y: real, z: real)

  datatype Vec4 = Vec4(x: real, y: real, z: real, w: real)

  function Min(a: int, b: int): int {
    if a < b then a else b
  }

  function Max(a: int, b: int): int {
    if a < b then b else a
  }

  function RealMin(a: real, b: real): real {
    if a < b then a else b
  }

  function RealMax(a: real, b: real): real {
    if a < b then b else a
  }

  /** A linear-space colour as three.js `Color` holds it. */
  datatype Rgb = Rgb(r: real, g: real, b: real)

  /** Euler angles in radians (three.js default order XYZ). */
  datatype Euler = Euler(x: real, y: real, z: real)

  /** A 3x3 matrix given by its rows. */
  datatype Mat3 = Mat3(row0: Vec3, row1: Vec3, row2: Vec3)

  /** The value a fresh three.js `Vector4` holds. */
  const DefaultVec4: Vec4 := Vec4(0.0, 0.0, 0.0, 1.0)

  const ZeroVec4: Vec4 := Vec4(0.0, 0.0, 0.0, 0.0)

  const Identity3: Mat3 := Mat3(Vec3(1.0, 0.0, 0.0), Vec3(0.0, 1.0, 0.0), Vec3(0.0, 0.0, 1.0))

  function Component(v: Vec3, j: nat): real
    requires j < 3
  {
    if j == 0 then v.x else if j == 1 then v.y else v.z
  }

  function Row(m: Mat3, i: nat): Vec3
    requires i < 3
  {
    if i == 0 then m.row0 else if i == 1 then m.row1 else m.row2
  }

  /** Entry (i, j) of `m`: row i, column j. */
  function Entry(m: Mat3, i: nat, j: nat): real
    requires i < 3 && j < 3
  {
    Component(Row(m, i), j)
  }

  /** Matrix transpose, as `Matrix3.transpose` computes it. */
  function Transpose(m: Mat3): (t: Mat3)
    ensures forall i, j :: 0 <= i < 3 && 0 <= j < 3 ==> Entry(t, i, j) == Entry(m, j, i)
  {
    Mat3(Vec3(m.row0.x, m.row1.x, m.row2.x),
         Vec3(m.row0.y, m.row1.y, m.row2.y),
         Vec3(m.row0.z, m.row1.z, m.row2.z))
  }

  /** Two matrices with the same entries are the same matrix. */
  lemma EntriesDetermineMatrix(a: Mat3, b: Mat3)
    requires forall i, j :: 0 <= i < 3 && 0 <= j < 3 ==> Entry(a, i, j) == Entry(b, i, j)
    ensures a == b
  {
    assert Entry(a, 0, 0) == Entry(b, 0, 0) && Entry(a, 0, 1) == Entry(b, 0, 1) && Entry(a, 0, 2) == Entry(b, 0, 2);
    assert Entry(a, 1, 0) == Entry(b, 1, 0) && Entry(a, 1, 1) == Entry(b, 1, 1) && Entry(a, 1, 2) == Entry(b, 1, 2);
    assert Entry(a, 2, 0) == Entry(b, 2, 0) && Entry(a, 2, 1) == Entry(b, 2, 1) && Entry(a, 2, 2) == Entry(b, 2, 2);
  }

  /** Transposing twice gives the matrix back, and the identity is its own
      transpose: the sentinel rotation is the same in either convention. */
  lemma TransposeInvolution(m: Mat3)
    ensures Transpose(Transpose(m)) == m
    ensures Transpose(Identity3) == Identity3
  {
    EntriesDetermineMatrix(Transpose(Transpose(m)), m);
  }

  /** The three.js numerics the host code calls but the model does not
      interpret, passed in as functions. */
  datatype ThreeOps = ThreeOps(
    /** Upper-left 3x3 block of `Matrix4.makeRotationFromEuler`. */
    eulerToMatrix: Euler -> Mat3,
    /** `Vector3.normalize` applied to a copy. */
    normalize: Vec3 -> Vec3,
    /** `rotationFromNormal`: the Euler rotation taking +Y onto a direction. */
    rotationFromNormal: Vec3 -> Euler,
    /** `new Color(hex)`: parse a CSS hex colour into linear RGB. */
    parseColor: string -> Rgb)
}
