# Linear algebra for a small OpenGL renderer, in Dafny

This project models the math module of a Rust OpenGL renderer (`src/math.rs`):
homogeneous 4-vectors (`Vector4`) and column-major 4x4 matrices (`Matrix4`), with
construction-only `Matrix2` and `Matrix3`. It proves facts about them.

- `f32` components are Dafny `real`, so every stated fact is exact.
- A matrix is four column vectors `x, y, z, w`. Entry (row r, column c) is component r of column c.
- Values (`Math.Vec4`, `Math.Mat4`, `Math.Vector2`, `Math.Vector3`, `Math.Matrix2`, `Math.Matrix3`)
  carry the pure operations: `new`, `from_columns`, `identity`, `create_translation`,
  `get_index`, `as_array`, `get_row`, `get_column`.
- The classes `Math.Vector4` and `Math.Matrix4` carry the operations that overwrite `self` in place.
  Each method's `ensures` ties the new state to a function of the old one.
  `Matrix4` owns four distinct `Vector4` column objects, and its scalar operations call theirs.
- `multiply_col_with_row` is a method with a `for` loop, proved against the function `Math.Dot`.
- `translate` and `rotate` recompute `as_array()` on every line, so component i is computed from a vector
  whose components 0..i-1 are already overwritten. `Math.SequentialTransform` states exactly that.
  The textbook product `Math.Transform` computes every component from the vector as it was on entry.
  `SequentialAgreesWhenUpperTriangular` shows the two agree when every entry below the diagonal is 0.
  Translations built from the identity have that shape. Rotation matrices do not.
- `rotate` takes `c` = cos(angle) and `s` = sin(angle) in place of the angle.
  `normalize` takes the value `get_length` would compute as a parameter `length`.
  The precondition `IsLength` pins that parameter to the non-negative square root of x² + y² + z².

Files: `math.dfy` (module `Math`, the model of `src/math.rs`) and `math_properties.dfy`
(module `MathProperties`, lemmas that relate several operations, plus the unit tests of the source
replayed as lemmas and as client methods).

Two points where the code's layout decides the outcome:
- `translate` re-reads the vector after each assignment (src/math.rs:89-92), so it is the line-by-line `SequentialTransform`, not the textbook product.
- `Matrix4::new` groups its sixteen arguments column by column. The left operand of the multiplication test therefore has rows (2,3,4,5), (1,2,3,4), (6,7,8,9), (1,2,3,4), and the expected 79 / 57 / 167 / 57 follow (src/math.rs:584-616), as `MultiplyExample` proves.

## Model

| member | source | states |
|---|---|---|
| `Math.Dot` | src/math.rs:384-392 | the accumulated sum is col[0]·row[0] + col[1]·row[1] + col[2]·row[2] + col[3]·row[3] |
| `Math.MultiplyColWithRow` | src/math.rs:384-392 | the `for` loop returns exactly the four-term dot product `Dot(col, row)` |
| `Math.Vec4.GetIndex` | src/math.rs:46-54 | component i is the i-th of x, y, z, w; indices past 3 are refused |
| `Math.Vec4.AsArray` | src/math.rs:46-59 | `as_array()[i]` is `get_index(i)` for every index 0..3 (x, y, z, w in that order) |
| `Math.Vec4.LengthSquared` | src/math.rs:141-143 | the squared length uses x, y and z only and is never negative |
| `Math.Vec4.Normalized` | src/math.rs:133-139 | normalising divides x, y, z by the length, keeps w, and gives x² + y² + z² = 1 |
| `Math.Mat4.New` | src/math.rs:230-242 | the sixteen scalars are grouped column by column: column c is (a[4c], …, a[4c+3]) and row r is (a[r], a[4+r], a[8+r], a[12+r]) |
| `Math.Mat4.FromColumns` | src/math.rs:244-251 | the four vectors become columns 0..3 in order; row r gathers component r of each |
| `Math.Mat4.Identity` | src/math.rs:254-261 | every row i and every column i of the identity is the i-th unit vector |
| `Math.Mat4.CreateTranslation` | src/math.rs:263-270 | columns 0..2 of the base are copied unchanged; column 3 becomes (v.x, v.y, v.z, base entry (3,3)) |
| `Math.Mat4.GetRow` | src/math.rs:272-290 | row i lists entry i of each column: `get_row(i)[c] == get_column(c)[i]`; indices past 3 are refused |
| `Math.Mat4.GetColumn` | src/math.rs:292-300 | column i lists entry (r, i) for r = 0..3; indices past 3 are refused |
| `Math.ProductColumn` | src/math.rs:335-361 | component r of new column c is `RowByColumn`: Σₖ self[r][k]·m[k][c] |
| `Math.Product` | src/math.rs:334-367 | entry (r, c) of the matrix `multiply_matrix` leaves is `RowByColumn`, Σₖ self[r][k]·m[k][c]: the receiver supplies the rows, the argument the columns |
| `Math.SequentialTransform` | src/math.rs:88-93 | component i is row i of the matrix against a vector whose components 0..i-1 are the new ones and i..3 the old ones |
| `Math.Transform` | src/math.rs:97-131 | the textbook product m·v, each component from the original vector (the corrected reading, see Findings) |
| `Math.RotationMatrix` | src/math.rs:97-125 | each rotation matrix has last row (0,0,0,1) and the row of its own axis equal to that axis's unit vector |
| `Math.Vector4.constructor` | src/math.rs:42-44 | a new vector holds exactly the four given components |
| `Math.Vec4.Plus` | src/math.rs:61-67 | the result of `add_scalar`: every component, w included, increases by n |
| `Math.Vec4.Minus` | src/math.rs:68-73 | the result of `subtract_scalar`: every component, w included, decreases by n |
| `Math.Vec4.Times` | src/math.rs:74-79 | the result of `multiply_scalar`: every component, w included, is multiplied by n |
| `Math.Vec4.Over` | src/math.rs:80-85 | the result of `divide_scalar`: every component, w included, is divided by a nonzero n |
| `Math.Vector4.AddScalar` | src/math.rs:61-67 | the vector is overwritten with `Plus(n)` of its old value |
| `Math.Vector4.SubtractScalar` | src/math.rs:68-73 | the vector is overwritten with `Minus(n)` of its old value |
| `Math.Vector4.MultiplyScalar` | src/math.rs:74-79 | the vector is overwritten with `Times(n)` of its old value |
| `Math.Vector4.DivideScalar` | src/math.rs:80-85 | the vector is overwritten with `Over(n)` of its old value, for a nonzero n |
| `Math.Vector4.Translate` | src/math.rs:88-93 | the new vector is the line-by-line application of the matrix's rows to the partly updated vector |
| `Math.Vector4.Rotate` | src/math.rs:97-131 | the new vector is the line-by-line application of the axis's rotation matrix |
| `Math.Vector4.Normalize` | src/math.rs:133-139 | the new vector is `Normalized`: x, y, z divided by the length, w untouched |
| `Math.Matrix4.constructor` | src/math.rs:244-251 | a matrix binding holds the given value in four fresh, distinct column objects |
| `Math.Mat4.Plus` | src/math.rs:302-307 | the result of `Matrix4::add_scalar`: every one of the sixteen entries increases by n |
| `Math.Mat4.Minus` | src/math.rs:309-314 | the result of `Matrix4::subtract_scalar`: every entry decreases by n |
| `Math.Mat4.Times` | src/math.rs:316-321 | the result of `Matrix4::multiply_scalar`: every entry is multiplied by n |
| `Math.Mat4.Over` | src/math.rs:323-328 | the result of `Matrix4::divide_scalar`: every entry is divided by a nonzero n |
| `Math.Matrix4.AddScalar` | src/math.rs:302-307 | each column object adds n in place; the matrix becomes `Plus(n)` of its old value and the columns stay distinct |
| `Math.Matrix4.SubtractScalar` | src/math.rs:309-314 | the matrix becomes `Minus(n)` of its old value |
| `Math.Matrix4.MultiplyScalar` | src/math.rs:316-321 | the matrix becomes `Times(n)` of its old value |
| `Math.Matrix4.DivideScalar` | src/math.rs:323-328 | the matrix becomes `Over(n)` of its old value, for a nonzero n |
| `Math.Matrix4.MultiplyMatrix` | src/math.rs:334-367 | all new columns come from the receiver as it was on entry; the receiver becomes `Product(old self, m)` |
| `Math.ColumnOfProduct` | src/math.rs:335-340 | one `colN` block computes column c of the product into a fresh vector |
| `Math.Matrix2.New` | src/math.rs:187-189 | four scalars grouped column by column |
| `Math.Matrix2.FromColumns` | src/math.rs:191-193 | the two vectors become columns 0 and 1 |
| `Math.Matrix2.Identity` | src/math.rs:195-197 | 1 on the diagonal, 0 elsewhere |
| `Math.Matrix3.New` | src/math.rs:203-213 | nine scalars grouped column by column |
| `Math.Matrix3.FromColumns` | src/math.rs:215-221 | the three vectors become columns 0..2 |
| `Math.Matrix3.Identity` | src/math.rs:223-225 | 1 on the diagonal, 0 elsewhere |
| `MathProperties.IdentityEntry` | src/math.rs:254-261 | entry (r, c) of the identity is 1 when r = c and 0 otherwise |
| `MathProperties.ProductIdentityRight` | src/math.rs:334-367 | `m.multiply_matrix(identity())` leaves every matrix unchanged |
| `MathProperties.ProductIdentityLeft` | src/math.rs:334-367 | the identity multiplied by any matrix gives that matrix |
| `MathProperties.ScalarRoundTrips` | src/math.rs:302-328 | subtracting n undoes adding n, and dividing by a nonzero n undoes multiplying by it, for every matrix |
| `MathProperties.ColumnRoundTrips` | src/math.rs:61-85 | the same two round trips for every vector |
| `MathProperties.ProductOrderMatters` | src/math.rs:330-333 | swapping receiver and argument changes the product (79 against 50 at entry (0,0) for the test matrices) |
| `MathProperties.MultiplyExample` | src/math.rs:583-618 | the test product has row 0 all 79 and column 0 equal to (79, 57, 167, 57) |
| `MathProperties.RowColumnExample` | src/math.rs:535-571 | for four columns (1,2,3,4), row 2 is (3,3,3,3) and column 0 is (1,2,3,4) |
| `MathProperties.DotExample` | src/math.rs:620-628 | (4, 5, 3.5, 0.7)·(1.3, 1.2, 0.7, 0.4) is exactly 13.93 |
| `MathProperties.SequentialAgreesWhenUpperTriangular` | src/math.rs:88-93 | line-by-line application equals the textbook product when every entry below the diagonal is 0 |
| `MathProperties.IdentityTranslateUnchanged` | src/math.rs:88-93 | translating by the identity leaves every vector unchanged |
| `MathProperties.TranslateFromIdentity` | src/math.rs:88-93 | translating by `create_translation(identity(), t)` gives (x + t.x·w, y + t.y·w, z + t.z·w, w), the textbook result |
| `MathProperties.TranslateExample` | src/math.rs:500-514 | (1,0,0,1) translated by the offset (1,1,0) becomes (2,1,0,1) |
| `MathProperties.RotateFixesAxis` | src/math.rs:97-131 | `rotate` never changes w, and about X / Y / Z it leaves x / y / z unchanged |
| `MathProperties.SequentialRotateLosesLength` | src/math.rs:127-130 | as written, a quarter turn about any axis sends a vector of length 1 to length 0 |
| `MathProperties.RotatedPreservesLength` | src/math.rs:97-125 | with cos² + sin² = 1, the textbook product with a rotation matrix keeps x² + y² + z² and w |

## Left out

- Floating point: components are exact reals. There is no `f32` rounding, NaN or infinity. The rounded-decimal assertions of the tests at src/math.rs:477-479 and 487 are not reproduced.
- Math.Vector4.DivideScalar: requires a nonzero divisor. The source divides by zero and gets infinities or NaN.
- Math.Matrix4.DivideScalar: requires a nonzero divisor, for the same reason.
- Math.Vector4.Normalize: requires a nonzero length. Normalising a zero vector yields NaN in the source.
- Math.Vec4.Normalized: requires a nonzero length, for the same reason.
- Math.Vec4.Over: requires a nonzero divisor, as `Vector4.DivideScalar` does.
- Math.Mat4.Over: requires a nonzero divisor, as `Matrix4.DivideScalar` does.
- `get_length`: the square root is a foreign float function. The model states its square (`Vec4.LengthSquared`). `normalize` receives the root as a parameter constrained by `Vec4.IsLength`.
- `rotate`'s angle: `sin` and `cos` are foreign float functions. `rotate` receives `c` and `s` in place of the angle. No relation between them is assumed except in `RotatedPreservesLength`, which requires c² + s² = 1.
- Index panics: `get_index`, `get_row` and `get_column` panic past index 3. The model turns that into the precondition `i < 4`.
- Ownership: a `Matrix4` passed by value to `translate` or `multiply_matrix` is a `Mat4` value. `Matrix4::new` and friends return values; a `Matrix4` object holds one.
- `convert_to_radians` and `convert_to_degrees`: scaling by the `f32` constant π. Their tests are empty.
- `Matrix4::print`: writes to standard output only.
- `Vector2::new` and `Vector3::new` are the datatype constructors `Vector2` and `Vector3`.
- src/shader.rs, src/texture.rs, src/buffer.rs, src/vertex_array.rs and src/lib.rs are not part of this model. Every function there is a thin call into the OpenGL bindings, and their results come from the driver.
- Math.Vector4.Rotate: keeps the line-by-line behaviour of the code, described under Findings. The corrected product is `Math.Transform`. Only the unit test at src/math.rs:490-497 calls `rotate`, and it asserts nothing.

## Findings

| source | as written | input that shows it | evidently intended | confidence | as-written member | corrected member |
|---|---|---|---|---|---|---|
| src/math.rs:127-130 | each line of `rotate` calls `self.as_array()` again, so rows 1..3 of the rotation meet components that were already rotated | axis Z, cos = 0, sin = 1, vector (1, 0, 0, 1) becomes (0, 0, 0, 1); likewise about X from (0, 1, 0, 1) and about Y from (1, 0, 0, 1) | every component computed from the vector on entry, a rotation that keeps the length of (x, y, z) | not executed | `MathProperties.SequentialRotateLosesLength` | `MathProperties.RotatedPreservesLength` |
