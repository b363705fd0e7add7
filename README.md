# 3D homogeneous transform engine — Dafny model

This project models the transform engine of `3dTransform.c`, a small
interactive program that composes 3D affine transformations of a cube. The
engine has three parts:

- **Matrix and vector algebra** on 4×4 homogeneous matrices and 4-vectors:
  `mat_identity`, `mat_mul` and `mat_vec_mul` (module `MatrixAlgebra`,
  file `matrix_algebra.dfy`).
- **Elementary transform builders**: translation, scaling, rotation about
  X, Y and Z, reflection and six shears. Each one starts from the identity and
  overwrites a fixed, small set of entries (module `TransformBuilders`, file
  `transform_builders.dfy`).
- **Cumulative model state**: the globals `model`, `cubeVerts` and
  `originalVerts`. `init_cube` loads the fixed cube, `apply_transform`
  pre-multiplies a new matrix into `model` and recomputes every derived
  vertex, and the `'c'` key resets the model (module `CubeState`, file
  `cube_state.dfy`, class `TransformState`).

The C works on `float`. The model uses exact `real` arithmetic, so the
algebraic facts (identity laws, composition order, reflection involution,
the angle-addition rule for rotations, shear effects) can be stated exactly.

Each primitive and builder has two forms:

- a function on values (`Matrix` is a 4×4 `seq<seq<real>>` and `Vector` is a
  length-4 `seq<real>`) that says what it computes;
- a method that fills an `array2<real>` out-parameter the way the C does, with
  a postcondition tying the array to that function.

The globals become a class with three `array2<real>` fields. `Valid()` holds
the central invariant: every derived vertex is `model` applied to its original
vertex. The constructor, `InitCube`, `ApplyTransform` and `ResetModel` all
preserve it.

A `vec4` argument of `mat_vec_mul` is a row of one of the 8×4 vertex arrays.
`MatVecMul` therefore takes an array and a row index for each vector. The C
writes `out[r]` while it is still reading `m` and `v`. `mat_mul` avoids this
by using a temporary, but `mat_vec_mul` does not. So `MatVecMul` requires
that its output row overlaps neither input. The only caller, the vertex loop,
always meets this.

## Model

| member | source | states |
|---|---|---|
| MatrixAlgebra.Identity | 3dTransform.c:35-38 | the identity has 1 on the diagonal and 0 everywhere else |
| MatrixAlgebra.MatIdentity | 3dTransform.c:35-38 | clearing the array and then setting the diagonal leaves the identity matrix in it |
| MatrixAlgebra.ApplyIdentity | 3dTransform.c:53-57 | multiplying any vector by the identity returns that vector unchanged |
| MatrixAlgebra.PartialDotComplete | 3dTransform.c:45-46 | accumulating a[r][k]·b[k][c] from 0 over k = 0…3 gives the full dot product of row and column |
| MatrixAlgebra.PartialDotStep | 3dTransform.c:46 | each `+=` step of the accumulation adds the next product to the partial sum |
| MatrixAlgebra.MulEntry | 3dTransform.c:41-50 | entry (r, c) of the product is Σ_k a[r][k]·b[k][c] |
| MatrixAlgebra.AccumulateEntry | 3dTransform.c:45-46 | the inner loop leaves entry (r, c) of the product in tmp[r][c] and keeps every other entry of tmp |
| MatrixAlgebra.CopyMatrix | 3dTransform.c:49 | after the copy the destination holds the matrix that the source held before |
| MatrixAlgebra.MatMul | 3dTransform.c:41-50 | `out` holds the product of the inputs as they were on entry, even when `out` is the same array as `a` or `b` |
| MatrixAlgebra.MatVecMul | 3dTransform.c:53-57 | the output row is m applied to the input row, that is out[r] = Σ_k m[r][k]·v[k], and every other row of `out` is kept |
| MatrixAlgebra.ApplyToPoint | 3dTransform.c:55 | applying m to (x, y, z, 1) adds the last column of m to m's linear part evaluated at (x, y, z) |
| MatrixAlgebra.MulIdentityLeft | 3dTransform.c:41-50 | identity·m = m |
| MatrixAlgebra.MulIdentityRight | 3dTransform.c:41-50 | m·identity = m |
| MatrixAlgebra.ApplyMul | 3dTransform.c:41-57 | applying a·b to a vector is applying b and then a |
| MatrixAlgebra.MulAssociative | 3dTransform.c:41-50 | (a·b)·c = a·(b·c) |
| TransformBuilders.Translation | 3dTransform.c:60-65 | identity except entries [0][3], [1][3] and [2][3], which are tx, ty and tz |
| TransformBuilders.TranslationMovesPoint | 3dTransform.c:60-65 | maps (x, y, z, 1) to (x+tx, y+ty, z+tz, 1) |
| TransformBuilders.TranslationMatrix | 3dTransform.c:60-65 | the filled array holds the translation matrix |
| TransformBuilders.Scaling | 3dTransform.c:68-73 | identity except the diagonal (sx, sy, sz, 1) |
| TransformBuilders.ScalingScalesPoint | 3dTransform.c:68-73 | maps (x, y, z, 1) to (sx·x, sy·y, sz·z, 1) |
| TransformBuilders.ScalingMatrix | 3dTransform.c:68-73 | the filled array holds the scaling matrix |
| TransformBuilders.RotationX | 3dTransform.c:76-81 | identity except [1][1]=c, [1][2]=−s, [2][1]=s, [2][2]=c |
| TransformBuilders.RotationXTurnsPoint | 3dTransform.c:76-81 | x is kept and (y, z) goes to (c·y − s·z, s·y + c·z) |
| TransformBuilders.RotationXMatrix | 3dTransform.c:76-81 | the filled array holds the rotation matrix about X |
| TransformBuilders.RotationXCompose | 3dTransform.c:76-81 | two rotations about X compose by the angle-addition rule for cosine and sine |
| TransformBuilders.RotationXZero | 3dTransform.c:76-81 | the zero angle (c = 1, s = 0) gives the identity |
| TransformBuilders.RotationXInverse | 3dTransform.c:76-81 | when c² + s² = 1, the rotation by the opposite angle undoes the rotation about X |
| TransformBuilders.RotationY | 3dTransform.c:84-89 | identity except [0][0]=c, [0][2]=s, [2][0]=−s, [2][2]=c |
| TransformBuilders.RotationYTurnsPoint | 3dTransform.c:84-89 | y is kept and (x, z) goes to (c·x + s·z, c·z − s·x) |
| TransformBuilders.RotationYMatrix | 3dTransform.c:84-89 | the filled array holds the rotation matrix about Y |
| TransformBuilders.RotationYCompose | 3dTransform.c:84-89 | two rotations about Y compose by the angle-addition rule |
| TransformBuilders.RotationYZero | 3dTransform.c:84-89 | the zero angle gives the identity |
| TransformBuilders.RotationYInverse | 3dTransform.c:84-89 | when c² + s² = 1, the rotation by the opposite angle undoes the rotation about Y |
| TransformBuilders.RotationZ | 3dTransform.c:92-97 | identity except [0][0]=c, [0][1]=−s, [1][0]=s, [1][1]=c |
| TransformBuilders.RotationZTurnsPoint | 3dTransform.c:92-97 | z is kept and (x, y) goes to (c·x − s·y, s·x + c·y) |
| TransformBuilders.RotationZMatrix | 3dTransform.c:92-97 | the filled array holds the rotation matrix about Z |
| TransformBuilders.RotationZCompose | 3dTransform.c:92-97 | two rotations about Z compose by the angle-addition rule |
| TransformBuilders.RotationZZero | 3dTransform.c:92-97 | the zero angle gives the identity |
| TransformBuilders.RotationZInverse | 3dTransform.c:92-97 | when c² + s² = 1, the rotation by the opposite angle undoes the rotation about Z |
| TransformBuilders.Reflection | 3dTransform.c:100-105 | for 'x'/'X', 'y'/'Y' or 'z'/'Z', exactly that diagonal entry becomes −1 and the rest is the identity; any other character gives the identity |
| TransformBuilders.ReflectionFlipsPoint | 3dTransform.c:100-105 | negates exactly the named coordinate of a point; any other character leaves the point unchanged |
| TransformBuilders.ReflectionInvolutive | 3dTransform.c:100-105 | reflecting twice gives back the identity, for every axis character |
| TransformBuilders.ReflectionMatrix | 3dTransform.c:100-105 | the filled array holds the reflection matrix |
| TransformBuilders.Shear | 3dTransform.c:108-118 | types 1…6 set exactly [0][1], [0][2], [1][0], [1][2], [2][0] or [2][1] to sh and leave the rest as the identity; any other type gives the identity |
| TransformBuilders.ShearMovesPoint | 3dTransform.c:108-118 | type 1 gives x += sh·y, 2 gives x += sh·z, 3 gives y += sh·x, 4 gives y += sh·z, 5 gives z += sh·x and 6 gives z += sh·y; any other type leaves the point unchanged |
| TransformBuilders.ShearMatrix | 3dTransform.c:108-118 | the filled array holds the shear matrix |
| CubeState.CubeFixture | 3dTransform.c:134-140 | eight distinct corners, each coordinate ±0.7, each with w = 1 |
| CubeState.TransformState.constructor | 3dTransform.c:22-24 | the zero-initialised static globals already satisfy the invariant cubeVerts[i] = model·originalVerts[i] |
| CubeState.TransformState.UpdateVertices | 3dTransform.c:127-129 | after the 8-iteration loop, every derived vertex is the current model applied to its original vertex |
| CubeState.TransformState.InitCube | 3dTransform.c:133-144 | the originals become the cube corners, the model becomes the identity and the derived vertices equal the corners; the invariant holds |
| CubeState.TransformState.ApplyTransform | 3dTransform.c:121-130 | model := M·(old model), which is correct even when M is `model`; the originals are unchanged; every derived vertex is M applied to its previous value; the invariant holds |
| CubeState.TransformState.ResetModel | 3dTransform.c:254-256 | the model becomes the identity and the derived vertices equal the originals, whatever the history; the originals are unchanged |
| CubeState.TransformState.VerticesUnderIdentity | 3dTransform.c:254-256 | under the invariant, an identity model means the derived vertices are the originals |
| CubeState.ComposeOrder | 3dTransform.c:121-124 | applying A and then B to a model m leaves B·(A·m) = (B·A)·m, which is B·A from a reset model; a point moves by A first, then by B |
| CubeState.OrderMatters | 3dTransform.c:121-124 | translating by (2, 0, 0) and then scaling by 2 gives a different model from the reverse order |

## Left out

- Rendering and windowing (`draw_axes`, `draw_cube`, `display`, `reshape`, `main`): these only call the GLUT and OpenGL libraries and contain no logic the model can state.
- Input handling other than the reset: `keyboard`'s dispatch from keys to builders with fixed parameters, `special`, `mouse`, `motion`, the view-orbit globals, `exit` on `q`/Esc. These are user-interface glue. `TranslateScaleReset` shows a session driven the way those handlers drive the engine.
- `printf` and `print_instructions`: output only.
- RotationX, RotationY, RotationZ: they take the cosine `c` and the sine `s` of the angle, not degrees. The conversion `angleDeg * DEG2RAD` and the calls to `cosf` and `sinf` are not modelled, because reals have no trigonometry here. The angle-addition and inverse lemmas are stated in terms of c and s. For the inverse lemmas the Pythagorean identity c² + s² = 1 is a hypothesis.
- Floating-point rounding: `float` becomes exact `real`. The model therefore does not capture rounding in products, drift when transforms are applied again and again, or that `0.7f` is not exactly 0.7.
- MatVecMul: what happens when the output row overlaps one of the inputs is not modelled. The C function gives a mixed result in that case, and the model forbids it instead. No caller in the source passes overlapping arguments.
