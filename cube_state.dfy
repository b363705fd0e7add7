/** The cumulative model state of 3dTransform.c: the `model` matrix, the
    fixed cube vertices `originalVerts` and the derived `cubeVerts`, kept so
    that every derived vertex is `model` applied to its original vertex. */
module CubeState {
  import opened MatrixAlgebra
  import opened TransformBuilders

  /** Half the side of the cube `init_cube` builds. */
  const HalfSize: real := 0.7

  /** The eight cube corners of `init_cube`, in its order, as homogeneous points. */
  function CubeFixture(): (vs: seq<Vector>)
    ensures |vs| == 8
    ensures forall i | 0 <= i < 8 :: vs[i][3] == 1.0
    ensures forall i, k | 0 <= i < 8 && 0 <= k < 3 :: vs[i][k] == HalfSize || vs[i][k] == -HalfSize
    ensures forall i, j | 0 <= i < j < 8 :: vs[i] != vs[j]
  {
    var s := HalfSize;
    [Point(-s, -s, -s), Point(s, -s, -s), Point(s, s, -s), Point(-s, s, -s),
     Point(-s, -s, s), Point(s, -s, s), Point(s, s, s), Point(-s, s, s)]
  }

  /** The file-level globals `model`, `cubeVerts` and `originalVerts`. */
  class TransformState {
    const model: array2<real>
    const cubeVerts: array2<real>
    const originalVerts: array2<real>

    /** The shapes of the three arrays and the central invariant: every
        derived vertex is the model applied to its original vertex. */
    ghost predicate Valid()
      reads model, cubeVerts, originalVerts
    {
      model.Length0 == 4 && model.Length1 == 4 &&
      cubeVerts.Length0 == 8 && cubeVerts.Length1 == 4 &&
      originalVerts.Length0 == 8 && originalVerts.Length1 == 4 &&
      cubeVerts != originalVerts &&
      forall i | 0 <= i < 8 :: Row(cubeVerts, i) == Apply(ToMatrix(model), Row(originalVerts, i))
    }

    /** The cumulative model matrix. */
    ghost function Model(): Matrix
      reads model
      requires model.Length0 == 4 && model.Length1 == 4
    {
      ToMatrix(model)
    }

    /** The transformed vertices handed to the renderer. */
    ghost function Vertices(): (vs: seq<Vector>)
      reads cubeVerts
      requires cubeVerts.Length0 == 8 && cubeVerts.Length1 == 4
      ensures |vs| == 8
    {
      seq(8, i requires 0 <= i < 8 reads cubeVerts => Row(cubeVerts, i))
    }

    /** The untransformed vertices. */
    ghost function Originals(): (vs: seq<Vector>)
      reads originalVerts
      requires originalVerts.Length0 == 8 && originalVerts.Length1 == 4
      ensures |vs| == 8
    {
      seq(8, i requires 0 <= i < 8 reads originalVerts => Row(originalVerts, i))
    }

    /** The globals as the program starts: static storage, all zero. The
        central invariant already holds, since 0 = 0 · 0. */
    constructor ()
      ensures Valid() && fresh(model) && fresh(cubeVerts) && fresh(originalVerts)
      ensures forall r, c | 0 <= r < 4 && 0 <= c < 4 :: model[r, c] == 0.0
      ensures forall i, c | 0 <= i < 8 && 0 <= c < 4 :: cubeVerts[i, c] == 0.0 && originalVerts[i, c] == 0.0
    {
      model := new real[4, 4]((_, _) => 0.0);
      cubeVerts := new real[8, 4]((_, _) => 0.0);
      originalVerts := new real[8, 4]((_, _) => 0.0);
    }

    /** Recompute every derived vertex from its original under the current
        model: the loop `apply_transform`, `init_cube` and the reset share. */
    method UpdateVertices()
      requires model.Length0 == 4 && model.Length1 == 4
      requires cubeVerts.Length0 == 8 && cubeVerts.Length1 == 4
      requires originalVerts.Length0 == 8 && originalVerts.Length1 == 4
      requires cubeVerts != originalVerts
      modifies cubeVerts
      ensures Valid()
    {
      for i := 0 to 8
        invariant forall j | 0 <= j < i :: Row(cubeVerts, j) == Apply(ToMatrix(model), Row(originalVerts, j))
      {
        MatVecMul(model, originalVerts, i, cubeVerts, i);
      }
    }

    /** `init_cube`: store the cube corners as the original vertices, reset
        the model to the identity and derive the vertices from it. */
    method InitCube()
      requires Valid()
      modifies model, cubeVerts, originalVerts
      ensures Valid()
      ensures Model() == Identity()
      ensures Originals() == CubeFixture()
      ensures Vertices() == CubeFixture()
    {
      var v := CubeFixture();
      forall i, c | 0 <= i < 8 && 0 <= c < 4 {
        originalVerts[i, c] := v[i][c];
      }
      assert Originals() == v;
      MatIdentity(model);
      UpdateVertices();
      VerticesUnderIdentity();
    }

    /** `apply_transform`: model := M · model (M on the left), then every
        derived vertex is recomputed. M may be `model` itself. */
    method ApplyTransform(M: array2<real>)
      requires Valid()
      requires M.Length0 == 4 && M.Length1 == 4
      modifies model, cubeVerts
      ensures Valid()
      ensures Model() == Mul(old(ToMatrix(M)), old(Model()))
      ensures Originals() == old(Originals())
      ensures forall i | 0 <= i < 8 :: Vertices()[i] == Apply(old(ToMatrix(M)), old(Vertices())[i])
    {
      ghost var before := Vertices();
      ghost var m0 := Model();
      var tmp := new real[4, 4];
      MatMul(M, model, tmp);
      CopyMatrix(tmp, model);
      UpdateVertices();
      forall i | 0 <= i < 8
        ensures Vertices()[i] == Apply(old(ToMatrix(M)), before[i])
      {
        ApplyMul(old(ToMatrix(M)), m0, Originals()[i]);
      }
    }

    /** The `'c'` key: reset the model to the identity and the derived
        vertices to the originals, whatever was applied before. */
    method ResetModel()
      requires Valid()
      modifies model, cubeVerts
      ensures Valid()
      ensures Model() == Identity()
      ensures Originals() == old(Originals())
      ensures Vertices() == Originals()
    {
      MatIdentity(model);
      UpdateVertices();
      VerticesUnderIdentity();
    }

    /** Under the identity model the derived vertices are the originals. */
    lemma VerticesUnderIdentity()
      requires Valid() && Model() == Identity()
      ensures Vertices() == Originals()
    {
    }
  }

  /** Composing A and then B onto a model m gives B · (A · m): the later
      transform is outermost, and a point moves by A first, then by B. From
      a reset model the result is B · A. */
  lemma ComposeOrder(a: Matrix, b: Matrix, m: Matrix, v: Vector)
    ensures Mul(b, Mul(a, m)) == Mul(Mul(b, a), m)
    ensures Apply(Mul(b, Mul(a, m)), v) == Apply(b, Apply(a, Apply(m, v)))
    ensures m == Identity() ==> Mul(b, Mul(a, m)) == Mul(b, a)
  {
    MulAssociative(b, a, m);
    ApplyMul(b, Mul(a, m), v);
    ApplyMul(a, m, v);
    MulIdentityRight(Mul(b, a));
  }

  /** Translating by (2, 0, 0) and then scaling by 2 is not the same as the
      other order: composition order matters. */
  lemma OrderMatters()
    ensures Mul(Scaling(2.0, 2.0, 2.0), Translation(2.0, 0.0, 0.0))
         != Mul(Translation(2.0, 0.0, 0.0), Scaling(2.0, 2.0, 2.0))
  {
  }

  /** A session as the keyboard handlers drive it: after `init_cube`, a
      translation by (2, 0, 0) followed by a scaling by 2 moves the corner
      (0.7, 0.7, 0.7) to (5.4, 1.4, 1.4); the `'c'` reset brings every vertex
      back to the cube. */
  method TranslateScaleReset() {
    var st := new TransformState();
    st.InitCube();
    var m := new real[4, 4];
    TranslationMatrix(2.0, 0.0, 0.0, m);
    st.ApplyTransform(m);
    TranslationMovesPoint(2.0, 0.0, 0.0, 0.7, 0.7, 0.7);
    assert st.Vertices()[6] == Point(2.7, 0.7, 0.7);
    ScalingMatrix(2.0, 2.0, 2.0, m);
    st.ApplyTransform(m);
    ScalingScalesPoint(2.0, 2.0, 2.0, 2.7, 0.7, 0.7);
    assert st.Vertices()[6] == Point(5.4, 1.4, 1.4);
    ComposeOrder(Translation(2.0, 0.0, 0.0), Scaling(2.0, 2.0, 2.0), Identity(), Point(0.7, 0.7, 0.7));
    assert st.Model() == Mul(Scaling(2.0, 2.0, 2.0), Translation(2.0, 0.0, 0.0));
    st.ResetModel();
    assert st.Vertices() == CubeFixture();
  }
}
