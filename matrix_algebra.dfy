/** Homogeneous 4×4 matrices and 4-vectors over exact reals.

    The value-level definitions (Identity, Dot, Apply, Mul) say what the
    primitives of 3dTransform.c compute; the methods (MatIdentity, MatMul,
    MatVecMul) fill out-parameter arrays the way the C functions do and are
    proved against those definitions. */
module MatrixAlgebra {

  /** A homogeneous 4-vector (x, y, z, w). */
  type Vector = v: seq<real> | |v| == 4 witness [0.0, 0.0, 0.0, 0.0]

  /** A 4×4 matrix in row-major order: m[r][c] is row r, column c. */
  type Matrix = m: seq<seq<real>> | |m| == 4 && forall r | 0 <= r < 4 :: |m[r]| == 4
    witness [[0.0, 0.0, 0.0, 0.0], [0.0, 0.0, 0.0, 0.0], [0.0, 0.0, 0.0, 0.0], [0.0, 0.0, 0.0, 0.0]]

  /** The homogeneous point (x, y, z, 1). */
  function Point(x: real, y: real, z: real): Vector {
    [x, y, z, 1.0]
  }

  /** The multiplicative identity. */
  function Identity(): (m: Matrix)
    ensures forall r, c | 0 <= r < 4 && 0 <= c < 4 :: m[r][c] == if r == c then 1.0 else 0.0
  {
    [[1.0, 0.0, 0.0, 0.0],
     [0.0, 1.0, 0.0, 0.0],
     [0.0, 0.0, 1.0, 0.0],
     [0.0, 0.0, 0.0, 1.0]]
  }

  /** u·v, summed in the order `mat_vec_mul` writes it. */
  function Dot(u: Vector, v: Vector): real {
    u[0] * v[0] + u[1] * v[1] + u[2] * v[2] + u[3] * v[3]
  }

  /** Σ_{k < n} u[k]·v[k], accumulated from 0 upwards as `mat_mul` does. */
  function PartialDot(u: Vector, v: Vector, n: nat): real
    requires n <= 4
  {
    if n == 0 then 0.0 else PartialDot(u, v, n - 1) + u[n - 1] * v[n - 1]
  }

  /** One more step of the accumulation adds the next product. */
  lemma PartialDotStep(u: Vector, v: Vector, k: nat, x: real, y: real)
    requires k < 4 && x == u[k] && y == v[k]
    ensures PartialDot(u, v, k + 1) == PartialDot(u, v, k) + x * y
  {
  }

  /** The accumulation over all four terms is the dot product. */
  lemma {:induction false} PartialDotComplete(u: Vector, v: Vector)
    ensures PartialDot(u, v, 4) == Dot(u, v)
  {
    calc {
      PartialDot(u, v, 4);
      PartialDot(u, v, 3) + u[3] * v[3];
      PartialDot(u, v, 2) + u[2] * v[2] + u[3] * v[3];
      PartialDot(u, v, 1) + u[1] * v[1] + u[2] * v[2] + u[3] * v[3];
      Dot(u, v);
    }
  }

  /** Column c of m. */
  function Column(m: Matrix, c: nat): Vector
    requires c < 4
  {
    [m[0][c], m[1][c], m[2][c], m[3][c]]
  }

  /** m·v: component r is row r of m dotted with v. */
  function Apply(m: Matrix, v: Vector): Vector {
    [Dot(m[0], v), Dot(m[1], v), Dot(m[2], v), Dot(m[3], v)]
  }

  /** Row u of a left factor times every column of b. */
  function RowTimes(u: Vector, b: Matrix): Vector {
    [Dot(u, Column(b, 0)), Dot(u, Column(b, 1)), Dot(u, Column(b, 2)), Dot(u, Column(b, 3))]
  }

  /** a·b: entry (r, c) is row r of a dotted with column c of b. */
  function Mul(a: Matrix, b: Matrix): Matrix {
    [RowTimes(a[0], b), RowTimes(a[1], b), RowTimes(a[2], b), RowTimes(a[3], b)]
  }

  /** Two matrices are equal when they agree entry by entry. */
  lemma MatrixExt(a: Matrix, b: Matrix)
    requires forall r, c | 0 <= r < 4 && 0 <= c < 4 :: a[r][c] == b[r][c]
    ensures a == b
  {
    forall r | 0 <= r < 4
      ensures a[r] == b[r]
    {
      assert a[r][0] == b[r][0] && a[r][1] == b[r][1] && a[r][2] == b[r][2] && a[r][3] == b[r][3];
    }
  }

  /** Entry (r, c) of a product. */
  lemma MulEntry(a: Matrix, b: Matrix, r: nat, c: nat)
    requires r < 4 && c < 4
    ensures Mul(a, b)[r][c] == a[r][0] * b[0][c] + a[r][1] * b[1][c] + a[r][2] * b[2][c] + a[r][3] * b[3][c]
  {
  }

  /** m applied to the point (x, y, z, 1) is the vector p whose entries
      are the rows of m evaluated there, the last column added as is. */
  lemma ApplyToPoint(m: Matrix, x: real, y: real, z: real, p: Vector)
    requires p[0] == m[0][0] * x + m[0][1] * y + m[0][2] * z + m[0][3]
    requires p[1] == m[1][0] * x + m[1][1] * y + m[1][2] * z + m[1][3]
    requires p[2] == m[2][0] * x + m[2][1] * y + m[2][2] * z + m[2][3]
    requires p[3] == m[3][0] * x + m[3][1] * y + m[3][2] * z + m[3][3]
    ensures Apply(m, Point(x, y, z)) == p
  {
    var q := Point(x, y, z);
    assert q[0] == x && q[1] == y && q[2] == z && q[3] == 1.0;
    assert Dot(m[0], q) == p[0] && Dot(m[1], q) == p[1] && Dot(m[2], q) == p[2] && Dot(m[3], q) == p[3];
  }

  /** The identity leaves every vector unchanged. */
  lemma ApplyIdentity(v: Vector)
    ensures Apply(Identity(), v) == v
  {
  }

  /** The identity is a left unit of the product. */
  lemma MulIdentityLeft(m: Matrix)
    ensures Mul(Identity(), m) == m
  {
    forall r, c | 0 <= r < 4 && 0 <= c < 4
      ensures Mul(Identity(), m)[r][c] == m[r][c]
    {
      MulEntry(Identity(), m, r, c);
    }
    MatrixExt(Mul(Identity(), m), m);
  }

  /** The identity is a right unit of the product. */
  lemma MulIdentityRight(m: Matrix)
    ensures Mul(m, Identity()) == m
  {
    forall r, c | 0 <= r < 4 && 0 <= c < 4
      ensures Mul(m, Identity())[r][c] == m[r][c]
    {
      MulEntry(m, Identity(), r, c);
    }
    MatrixExt(Mul(m, Identity()), m);
  }

  /** A row dotted with b·v equals the row times b, dotted with v. */
  lemma DotApply(u: Vector, b: Matrix, v: Vector)
    ensures Dot(u, Apply(b, v)) == Dot(RowTimes(u, b), v)
  {
  }

  /** Applying a product is applying its right factor, then its left one. */
  lemma ApplyMul(a: Matrix, b: Matrix, v: Vector)
    ensures Apply(Mul(a, b), v) == Apply(a, Apply(b, v))
  {
    DotApply(a[0], b, v);
    DotApply(a[1], b, v);
    DotApply(a[2], b, v);
    DotApply(a[3], b, v);
  }

  /** The product is associative, so a history of compositions may be regrouped. */
  lemma MulAssociative(a: Matrix, b: Matrix, c: Matrix)
    ensures Mul(Mul(a, b), c) == Mul(a, Mul(b, c))
  {
    forall r, j | 0 <= r < 4 && 0 <= j < 4
      ensures Mul(Mul(a, b), c)[r][j] == Mul(a, Mul(b, c))[r][j]
    {
      var col := Column(c, j);
      ApplyMul(a, b, col);
      MulEntry(Mul(a, b), c, r, j);
      MulEntry(a, Mul(b, c), r, j);
      forall k | 0 <= k < 4
        ensures Mul(b, c)[k][j] == Apply(b, col)[k]
      {
        MulEntry(b, c, k, j);
      }
    }
    MatrixExt(Mul(Mul(a, b), c), Mul(a, Mul(b, c)));
  }

  // ---------------------------------------------------------------------
  // The `mat4` arrays of the C source and the procedures that fill them.

  /** Row i of a two-dimensional array with four columns, as a vector. */
  function Row(a: array2<real>, i: nat): Vector
    reads a
    requires i < a.Length0 && a.Length1 == 4
  {
    [a[i, 0], a[i, 1], a[i, 2], a[i, 3]]
  }

  /** The matrix held by a 4×4 array. */
  function ToMatrix(a: array2<real>): Matrix
    reads a
    requires a.Length0 == 4 && a.Length1 == 4
  {
    [Row(a, 0), Row(a, 1), Row(a, 2), Row(a, 3)]
  }

  /** `mat_identity`: clear every entry, then set the diagonal to 1. */
  method MatIdentity(m: array2<real>)
    requires m.Length0 == 4 && m.Length1 == 4
    modifies m
    ensures ToMatrix(m) == Identity()
  {
    forall r, c | 0 <= r < 4 && 0 <= c < 4 {
      m[r, c] := 0.0;
    }
    for i := 0 to 4
      invariant forall r, c | 0 <= r < 4 && 0 <= c < 4 :: m[r, c] == if r == c && r < i then 1.0 else 0.0
    {
      m[i, i] := 1.0;
    }
    MatrixExt(ToMatrix(m), Identity());
  }

  /** The `memcpy` of one `mat4` into another. */
  method CopyMatrix(src: array2<real>, dst: array2<real>)
    requires src.Length0 == 4 && src.Length1 == 4 && dst.Length0 == 4 && dst.Length1 == 4
    modifies dst
    ensures ToMatrix(dst) == old(ToMatrix(src))
  {
    forall r, c | 0 <= r < 4 && 0 <= c < 4 {
      dst[r, c] := src[r, c];
    }
    MatrixExt(ToMatrix(dst), old(ToMatrix(src)));
  }

  /** The innermost loop of `mat_mul`: tmp[r][c] := 0, then add
      a[r][k]·b[k][c] for k = 0 … 3. Every other entry of tmp is kept. */
  method AccumulateEntry(a: array2<real>, b: array2<real>, r: nat, c: nat, tmp: array2<real>)
    requires a.Length0 == 4 && a.Length1 == 4 && b.Length0 == 4 && b.Length1 == 4
    requires tmp.Length0 == 4 && tmp.Length1 == 4 && tmp != a && tmp != b
    requires r < 4 && c < 4
    modifies tmp
    ensures tmp[r, c] == Mul(ToMatrix(a), ToMatrix(b))[r][c]
    ensures forall i, j | 0 <= i < 4 && 0 <= j < 4 && (i, j) != (r, c) :: tmp[i, j] == old(tmp[i, j])
  {
    ghost var u, w := ToMatrix(a)[r], Column(ToMatrix(b), c);
    tmp[r, c] := 0.0;
    for k := 0 to 4
      invariant tmp[r, c] == PartialDot(u, w, k)
      invariant forall i, j | 0 <= i < 4 && 0 <= j < 4 && (i, j) != (r, c) :: tmp[i, j] == old(tmp[i, j])
    {
      var x, y := a[r, k], b[k, c];
      PartialDotStep(u, w, k, x, y);
      tmp[r, c] := tmp[r, c] + x * y;
    }
    PartialDotComplete(u, w);
    MulEntry(ToMatrix(a), ToMatrix(b), r, c);
  }

  /** `mat_mul`: out := a·b. The product is accumulated in a fresh
      temporary and copied out only once complete, so the result is right
      even when `out` is the same array as `a` or `b`. */
  method MatMul(a: array2<real>, b: array2<real>, out: array2<real>)
    requires a.Length0 == 4 && a.Length1 == 4 && b.Length0 == 4 && b.Length1 == 4
    requires out.Length0 == 4 && out.Length1 == 4
    modifies out
    ensures ToMatrix(out) == Mul(old(ToMatrix(a)), old(ToMatrix(b)))
  {
    ghost var P := Mul(ToMatrix(a), ToMatrix(b));
    var tmp := new real[4, 4];
    for r := 0 to 4
      modifies tmp
      invariant forall i, j | 0 <= i < r && 0 <= j < 4 :: tmp[i, j] == P[i][j]
    {
      for c := 0 to 4
        modifies tmp
        invariant forall i, j | 0 <= i < r && 0 <= j < 4 :: tmp[i, j] == P[i][j]
        invariant forall j | 0 <= j < c :: tmp[r, j] == P[r][j]
      {
        AccumulateEntry(a, b, r, c, tmp);
      }
    }
    MatrixExt(ToMatrix(tmp), P);
    CopyMatrix(tmp, out);
  }

  /** `mat_vec_mul`: row `oi` of `out` := m · (row `vi` of `v`). The rows
      stand for the `vec4` pointers the C passes. The C writes out[r] while
      it still reads m and v, so the output may overlap neither input. */
  method MatVecMul(m: array2<real>, v: array2<real>, vi: nat, out: array2<real>, oi: nat)
    requires m.Length0 == 4 && m.Length1 == 4
    requires vi < v.Length0 && v.Length1 == 4
    requires oi < out.Length0 && out.Length1 == 4
    requires out != m && (out != v || oi != vi)
    modifies out
    ensures Row(out, oi) == Apply(ToMatrix(m), Row(v, vi))
    ensures forall i, c | 0 <= i < out.Length0 && i != oi && 0 <= c < 4 :: out[i, c] == old(out[i, c])
  {
    ghost var M, V := ToMatrix(m), Row(v, vi);
    for r := 0 to 4
      invariant ToMatrix(m) == M && Row(v, vi) == V
      invariant forall j | 0 <= j < r :: out[oi, j] == Apply(M, V)[j]
      invariant forall i, c | 0 <= i < out.Length0 && i != oi && 0 <= c < 4 :: out[i, c] == old(out[i, c])
    {
      out[oi, r] := m[r, 0] * v[vi, 0] + m[r, 1] * v[vi, 1] + m[r, 2] * v[vi, 2] + m[r, 3] * v[vi, 3];
    }
  }
}
