/** The elementary transform builders of 3dTransform.c. Each starts from the
    identity and overwrites a fixed, small set of entries. The functions give
    the matrix each builder produces; the methods fill an out-parameter array
    the way the C does and are proved to produce that matrix. */
module TransformBuilders {
  import opened MatrixAlgebra

  /** m with entry (r, c) overwritten by x. */
  function With(m: Matrix, r: nat, c: nat, x: real): (m': Matrix)
    requires r < 4 && c < 4
    ensures m'[r][c] == x
    ensures forall i, j | 0 <= i < 4 && 0 <= j < 4 && (i, j) != (r, c) :: m'[i][j] == m[i][j]
  {
    m[r := m[r][c := x]]
  }

  /** m agrees with the identity everywhere outside `cells`. */
  predicate IdentityExcept(m: Matrix, cells: set<(int, int)>) {
    forall r, c | 0 <= r < 4 && 0 <= c < 4 && (r, c) !in cells :: m[r][c] == if r == c then 1.0 else 0.0
  }

  /** `translation_matrix`: identity with (tx, ty, tz) in the last column. */
  function Translation(tx: real, ty: real, tz: real): (m: Matrix)
    ensures IdentityExcept(m, {(0, 3), (1, 3), (2, 3)})
    ensures m[0][3] == tx && m[1][3] == ty && m[2][3] == tz
  {
    With(With(With(Identity(), 0, 3, tx), 1, 3, ty), 2, 3, tz)
  }

  /** `scaling_matrix`: identity with diagonal (sx, sy, sz, 1). */
  function Scaling(sx: real, sy: real, sz: real): (m: Matrix)
    ensures IdentityExcept(m, {(0, 0), (1, 1), (2, 2)})
    ensures m[0][0] == sx && m[1][1] == sy && m[2][2] == sz
  {
    With(With(With(Identity(), 0, 0, sx), 1, 1, sy), 2, 2, sz)
  }

  /** `rotation_x_matrix`, given c = cos a and s = sin a of the angle a. */
  function RotationX(c: real, s: real): (m: Matrix)
    ensures IdentityExcept(m, {(1, 1), (1, 2), (2, 1), (2, 2)})
    ensures m[1][1] == c && m[1][2] == -s && m[2][1] == s && m[2][2] == c
  {
    With(With(With(With(Identity(), 1, 1, c), 1, 2, -s), 2, 1, s), 2, 2, c)
  }

  /** `rotation_y_matrix`, given c = cos a and s = sin a of the angle a. */
  function RotationY(c: real, s: real): (m: Matrix)
    ensures IdentityExcept(m, {(0, 0), (0, 2), (2, 0), (2, 2)})
    ensures m[0][0] == c && m[0][2] == s && m[2][0] == -s && m[2][2] == c
  {
    With(With(With(With(Identity(), 0, 0, c), 0, 2, s), 2, 0, -s), 2, 2, c)
  }

  /** `rotation_z_matrix`, given c = cos a and s = sin a of the angle a. */
  function RotationZ(c: real, s: real): (m: Matrix)
    ensures IdentityExcept(m, {(0, 0), (0, 1), (1, 0), (1, 1)})
    ensures m[0][0] == c && m[0][1] == -s && m[1][0] == s && m[1][1] == c
  {
    With(With(With(With(Identity(), 0, 0, c), 0, 1, -s), 1, 0, s), 1, 1, c)
  }

  /** The axis characters `reflection_matrix` recognises. */
  predicate IsReflectionAxis(axis: char) {
    axis == 'x' || axis == 'X' || axis == 'y' || axis == 'Y' || axis == 'z' || axis == 'Z'
  }

  /** `reflection_matrix`: negate the diagonal entry of the named axis; an
      unrecognised axis leaves the identity. */
  function Reflection(axis: char): (m: Matrix)
    ensures axis == 'x' || axis == 'X' ==> IdentityExcept(m, {(0, 0)}) && m[0][0] == -1.0
    ensures axis == 'y' || axis == 'Y' ==> IdentityExcept(m, {(1, 1)}) && m[1][1] == -1.0
    ensures axis == 'z' || axis == 'Z' ==> IdentityExcept(m, {(2, 2)}) && m[2][2] == -1.0
    ensures !IsReflectionAxis(axis) ==> m == Identity()
  {
    var m0 := Identity();
    var m1 := if axis == 'x' || axis == 'X' then With(m0, 0, 0, -1.0) else m0;
    var m2 := if axis == 'y' || axis == 'Y' then With(m1, 1, 1, -1.0) else m1;
    if axis == 'z' || axis == 'Z' then With(m2, 2, 2, -1.0) else m2
  }

  /** `shear_matrix`: types 1 … 6 put sh in one off-diagonal entry; any other
      type leaves the identity. */
  function Shear(shearType: int, sh: real): (m: Matrix)
    ensures shearType == 1 ==> IdentityExcept(m, {(0, 1)}) && m[0][1] == sh
    ensures shearType == 2 ==> IdentityExcept(m, {(0, 2)}) && m[0][2] == sh
    ensures shearType == 3 ==> IdentityExcept(m, {(1, 0)}) && m[1][0] == sh
    ensures shearType == 4 ==> IdentityExcept(m, {(1, 2)}) && m[1][2] == sh
    ensures shearType == 5 ==> IdentityExcept(m, {(2, 0)}) && m[2][0] == sh
    ensures shearType == 6 ==> IdentityExcept(m, {(2, 1)}) && m[2][1] == sh
    ensures !(1 <= shearType <= 6) ==> m == Identity()
  {
    match shearType
    case 1 => With(Identity(), 0, 1, sh)
    case 2 => With(Identity(), 0, 2, sh)
    case 3 => With(Identity(), 1, 0, sh)
    case 4 => With(Identity(), 1, 2, sh)
    case 5 => With(Identity(), 2, 0, sh)
    case 6 => With(Identity(), 2, 1, sh)
    case _ => Identity()
  }

  // ---------------------------------------------------------------------
  // What each transform does to a homogeneous point (x, y, z, 1).

  /** A translation moves a point by (tx, ty, tz). */
  lemma TranslationMovesPoint(tx: real, ty: real, tz: real, x: real, y: real, z: real)
    ensures Apply(Translation(tx, ty, tz), Point(x, y, z)) == Point(x + tx, y + ty, z + tz)
  {
  }

  /** A scaling multiplies each coordinate by its factor. */
  lemma ScalingScalesPoint(sx: real, sy: real, sz: real, x: real, y: real, z: real)
    ensures Apply(Scaling(sx, sy, sz), Point(x, y, z)) == Point(sx * x, sy * y, sz * z)
  {
    ApplyToPoint(Scaling(sx, sy, sz), x, y, z, Point(sx * x, sy * y, sz * z));
  }

  /** A rotation about X keeps x and turns (y, z) in their plane. */
  lemma RotationXTurnsPoint(c: real, s: real, x: real, y: real, z: real)
    ensures Apply(RotationX(c, s), Point(x, y, z)) == Point(x, c * y - s * z, s * y + c * z)
  {
    ApplyToPoint(RotationX(c, s), x, y, z, Point(x, c * y - s * z, s * y + c * z));
  }

  /** A rotation about Y keeps y and turns (z, x) in their plane. */
  lemma RotationYTurnsPoint(c: real, s: real, x: real, y: real, z: real)
    ensures Apply(RotationY(c, s), Point(x, y, z)) == Point(c * x + s * z, y, c * z - s * x)
  {
    ApplyToPoint(RotationY(c, s), x, y, z, Point(c * x + s * z, y, c * z - s * x));
  }

  /** A rotation about Z keeps z and turns (x, y) in their plane. */
  lemma RotationZTurnsPoint(c: real, s: real, x: real, y: real, z: real)
    ensures Apply(RotationZ(c, s), Point(x, y, z)) == Point(c * x - s * y, s * x + c * y, z)
  {
    ApplyToPoint(RotationZ(c, s), x, y, z, Point(c * x - s * y, s * x + c * y, z));
  }

  /** A reflection flips the sign of the named coordinate; any other axis
      character leaves the point where it is. */
  lemma ReflectionFlipsPoint(axis: char, x: real, y: real, z: real)
    ensures axis == 'x' || axis == 'X' ==> Apply(Reflection(axis), Point(x, y, z)) == Point(-x, y, z)
    ensures axis == 'y' || axis == 'Y' ==> Apply(Reflection(axis), Point(x, y, z)) == Point(x, -y, z)
    ensures axis == 'z' || axis == 'Z' ==> Apply(Reflection(axis), Point(x, y, z)) == Point(x, y, -z)
    ensures !IsReflectionAxis(axis) ==> Apply(Reflection(axis), Point(x, y, z)) == Point(x, y, z)
  {
    var m := Reflection(axis);
    if axis == 'x' || axis == 'X' {
      ApplyToPoint(m, x, y, z, Point(-x, y, z));
    } else if axis == 'y' || axis == 'Y' {
      ApplyToPoint(m, x, y, z, Point(x, -y, z));
    } else if axis == 'z' || axis == 'Z' {
      ApplyToPoint(m, x, y, z, Point(x, y, -z));
    } else {
      ApplyToPoint(m, x, y, z, Point(x, y, z));
    }
  }

  /** Each shear type adds sh times one coordinate to another; any other
      type leaves the point where it is. */
  lemma ShearMovesPoint(shearType: int, sh: real, x: real, y: real, z: real)
    ensures shearType == 1 ==> Apply(Shear(shearType, sh), Point(x, y, z)) == Point(x + sh * y, y, z)
    ensures shearType == 2 ==> Apply(Shear(shearType, sh), Point(x, y, z)) == Point(x + sh * z, y, z)
    ensures shearType == 3 ==> Apply(Shear(shearType, sh), Point(x, y, z)) == Point(x, y + sh * x, z)
    ensures shearType == 4 ==> Apply(Shear(shearType, sh), Point(x, y, z)) == Point(x, y + sh * z, z)
    ensures shearType == 5 ==> Apply(Shear(shearType, sh), Point(x, y, z)) == Point(x, y, z + sh * x)
    ensures shearType == 6 ==> Apply(Shear(shearType, sh), Point(x, y, z)) == Point(x, y, z + sh * y)
    ensures !(1 <= shearType <= 6) ==> Apply(Shear(shearType, sh), Point(x, y, z)) == Point(x, y, z)
  {
    var m := Shear(shearType, sh);
    match shearType {
      case 1 => ApplyToPoint(m, x, y, z, Point(x + sh * y, y, z));
      case 2 => ApplyToPoint(m, x, y, z, Point(x + sh * z, y, z));
      case 3 => ApplyToPoint(m, x, y, z, Point(x, y + sh * x, z));
      case 4 => ApplyToPoint(m, x, y, z, Point(x, y + sh * z, z));
      case 5 => ApplyToPoint(m, x, y, z, Point(x, y, z + sh * x));
      case 6 => ApplyToPoint(m, x, y, z, Point(x, y, z + sh * y));
      case _ => ApplyToPoint(m, x, y, z, Point(x, y, z));
    }
  }

  // ---------------------------------------------------------------------
  // Algebraic laws of the builders.

  /** Reflecting twice across the same plane gives back the identity. For an
      unrecognised axis both factors are the identity, so the law holds for
      every character. */
  lemma ReflectionInvolutive(axis: char)
    ensures Mul(Reflection(axis), Reflection(axis)) == Identity()
  {
  }

  /** Rotations about X compose by the angle-addition rule: with c, s the
      cosine and sine of a and c', s' those of b, the product is the
      rotation whose cosine and sine are those of a + b. */
  lemma RotationXCompose(c: real, s: real, c': real, s': real)
    ensures Mul(RotationX(c', s'), RotationX(c, s)) == RotationX(c' * c - s' * s, s' * c + c' * s)
  {
    var p := Mul(RotationX(c', s'), RotationX(c, s));
    forall r, j | 0 <= r < 4 && 0 <= j < 4
      ensures p[r][j] == RotationX(c' * c - s' * s, s' * c + c' * s)[r][j]
    {
      MulEntry(RotationX(c', s'), RotationX(c, s), r, j);
    }
    MatrixExt(p, RotationX(c' * c - s' * s, s' * c + c' * s));
  }

  /** Rotations about Y compose by the angle-addition rule. */
  lemma RotationYCompose(c: real, s: real, c': real, s': real)
    ensures Mul(RotationY(c', s'), RotationY(c, s)) == RotationY(c' * c - s' * s, s' * c + c' * s)
  {
    var p := Mul(RotationY(c', s'), RotationY(c, s));
    forall r, j | 0 <= r < 4 && 0 <= j < 4
      ensures p[r][j] == RotationY(c' * c - s' * s, s' * c + c' * s)[r][j]
    {
      MulEntry(RotationY(c', s'), RotationY(c, s), r, j);
    }
    MatrixExt(p, RotationY(c' * c - s' * s, s' * c + c' * s));
  }

  /** Rotations about Z compose by the angle-addition rule. */
  lemma RotationZCompose(c: real, s: real, c': real, s': real)
    ensures Mul(RotationZ(c', s'), RotationZ(c, s)) == RotationZ(c' * c - s' * s, s' * c + c' * s)
  {
    var p := Mul(RotationZ(c', s'), RotationZ(c, s));
    forall r, j | 0 <= r < 4 && 0 <= j < 4
      ensures p[r][j] == RotationZ(c' * c - s' * s, s' * c + c' * s)[r][j]
    {
      MulEntry(RotationZ(c', s'), RotationZ(c, s), r, j);
    }
    MatrixExt(p, RotationZ(c' * c - s' * s, s' * c + c' * s));
  }

  /** A rotation by the zero angle (cosine 1, sine 0) about X is the identity. */
  lemma RotationXZero()
    ensures RotationX(1.0, 0.0) == Identity()
  {
    MatrixExt(RotationX(1.0, 0.0), Identity());
  }

  /** A rotation by the zero angle (cosine 1, sine 0) about Y is the identity. */
  lemma RotationYZero()
    ensures RotationY(1.0, 0.0) == Identity()
  {
    MatrixExt(RotationY(1.0, 0.0), Identity());
  }

  /** A rotation by the zero angle (cosine 1, sine 0) about Z is the identity. */
  lemma RotationZZero()
    ensures RotationZ(1.0, 0.0) == Identity()
  {
    MatrixExt(RotationZ(1.0, 0.0), Identity());
  }

  /** When c² + s² = 1, the rotation by the opposite angle (cosine c, sine
      -s) undoes a rotation about X. */
  lemma RotationXInverse(c: real, s: real)
    requires c * c + s * s == 1.0
    ensures Mul(RotationX(c, -s), RotationX(c, s)) == Identity()
  {
    var p := Mul(RotationX(c, -s), RotationX(c, s));
    forall r, j | 0 <= r < 4 && 0 <= j < 4
      ensures p[r][j] == Identity()[r][j]
    {
      MulEntry(RotationX(c, -s), RotationX(c, s), r, j);
    }
    MatrixExt(p, Identity());
  }

  /** When c² + s² = 1, the opposite rotation undoes a rotation about Y. */
  lemma RotationYInverse(c: real, s: real)
    requires c * c + s * s == 1.0
    ensures Mul(RotationY(c, -s), RotationY(c, s)) == Identity()
  {
    var p := Mul(RotationY(c, -s), RotationY(c, s));
    forall r, j | 0 <= r < 4 && 0 <= j < 4
      ensures p[r][j] == Identity()[r][j]
    {
      MulEntry(RotationY(c, -s), RotationY(c, s), r, j);
    }
    MatrixExt(p, Identity());
  }

  /** When c² + s² = 1, the opposite rotation undoes a rotation about Z. */
  lemma RotationZInverse(c: real, s: real)
    requires c * c + s * s == 1.0
    ensures Mul(RotationZ(c, -s), RotationZ(c, s)) == Identity()
  {
    var p := Mul(RotationZ(c, -s), RotationZ(c, s));
    forall r, j | 0 <= r < 4 && 0 <= j < 4
      ensures p[r][j] == Identity()[r][j]
    {
      MulEntry(RotationZ(c, -s), RotationZ(c, s), r, j);
    }
    MatrixExt(p, Identity());
  }

  // ---------------------------------------------------------------------
  // The builders as the C writes them: fill an out-parameter array.

  /** `translation_matrix`. */
  method TranslationMatrix(tx: real, ty: real, tz: real, out: array2<real>)
    requires out.Length0 == 4 && out.Length1 == 4
    modifies out
    ensures ToMatrix(out) == Translation(tx, ty, tz)
  {
    MatIdentity(out);
    out[0, 3] := tx;
    out[1, 3] := ty;
    out[2, 3] := tz;
    MatrixExt(ToMatrix(out), Translation(tx, ty, tz));
  }

  /** `scaling_matrix`. */
  method ScalingMatrix(sx: real, sy: real, sz: real, out: array2<real>)
    requires out.Length0 == 4 && out.Length1 == 4
    modifies out
    ensures ToMatrix(out) == Scaling(sx, sy, sz)
  {
    MatIdentity(out);
    out[0, 0] := sx;
    out[1, 1] := sy;
    out[2, 2] := sz;
    MatrixExt(ToMatrix(out), Scaling(sx, sy, sz));
  }

  /** `rotation_x_matrix`, with the cosine and sine of the angle given. */
  method RotationXMatrix(c: real, s: real, out: array2<real>)
    requires out.Length0 == 4 && out.Length1 == 4
    modifies out
    ensures ToMatrix(out) == RotationX(c, s)
  {
    MatIdentity(out);
    out[1, 1] := c;
    out[1, 2] := -s;
    out[2, 1] := s;
    out[2, 2] := c;
    MatrixExt(ToMatrix(out), RotationX(c, s));
  }

  /** `rotation_y_matrix`, with the cosine and sine of the angle given. */
  method RotationYMatrix(c: real, s: real, out: array2<real>)
    requires out.Length0 == 4 && out.Length1 == 4
    modifies out
    ensures ToMatrix(out) == RotationY(c, s)
  {
    MatIdentity(out);
    out[0, 0] := c;
    out[0, 2] := s;
    out[2, 0] := -s;
    out[2, 2] := c;
    MatrixExt(ToMatrix(out), RotationY(c, s));
  }

  /** `rotation_z_matrix`, with the cosine and sine of the angle given. */
  method RotationZMatrix(c: real, s: real, out: array2<real>)
    requires out.Length0 == 4 && out.Length1 == 4
    modifies out
    ensures ToMatrix(out) == RotationZ(c, s)
  {
    MatIdentity(out);
    out[0, 0] := c;
    out[0, 1] := -s;
    out[1, 0] := s;
    out[1, 1] := c;
    MatrixExt(ToMatrix(out), RotationZ(c, s));
  }

  /** `reflection_matrix`. */
  method ReflectionMatrix(axis: char, out: array2<real>)
    requires out.Length0 == 4 && out.Length1 == 4
    modifies out
    ensures ToMatrix(out) == Reflection(axis)
  {
    MatIdentity(out);
    if axis == 'x' || axis == 'X' {
      out[0, 0] := -1.0;
    }
    if axis == 'y' || axis == 'Y' {
      out[1, 1] := -1.0;
    }
    if axis == 'z' || axis == 'Z' {
      out[2, 2] := -1.0;
    }
    MatrixExt(ToMatrix(out), Reflection(axis));
  }

  /** `shear_matrix`. */
  method ShearMatrix(shearType: int, sh: real, out: array2<real>)
    requires out.Length0 == 4 && out.Length1 == 4
    modifies out
    ensures ToMatrix(out) == Shear(shearType, sh)
  {
    MatIdentity(out);
    match shearType {
      case 1 => out[0, 1] := sh;
      case 2 => out[0, 2] := sh;
      case 3 => out[1, 0] := sh;
      case 4 => out[1, 2] := sh;
      case 5 => out[2, 0] := sh;
      case 6 => out[2, 1] := sh;
      case _ =>
    }
    MatrixExt(ToMatrix(out), Shear(shearType, sh));
  }
}
