/** Linear algebra behind the renderer's transforms: homogeneous 4-vectors and
    column-major 4x4 matrices (with construction-only 2x2 and 3x3 analogues).

    Components are `f32` in the source; here they are `real`, so every fact below
    is exact. A matrix is stored as four column vectors `x, y, z, w`: entry
    (row r, column c) is component r of column c. Values (`Vec4`, `Mat4`) carry
    the pure operations; the classes `Vector4` and `Matrix4` carry the operations
    that overwrite `self` in place. */
module Math {

  /** Dividing x, y and z by l divides their sum of squares by l². */
  lemma ScaledSquares(x: real, y: real, z: real, l: real, qx: real, qy: real, qz: real)
    requires qx * l == x && qy * l == y && qz * l == z
    ensures (qx * qx + qy * qy + qz * qz) * (l * l) == x * x + y * y + z * z
  {
    assert (qx * qx + qy * qy + qz * qz) * (l * l)
        == (qx * l) * (qx * l) + (qy * l) * (qy * l) + (qz * l) * (qz * l);
  }

  /** A value that l² scales to l² is 1. */
  lemma UnitFromScaled(s: real, l: real, t: real)
    requires l != 0.0 && s * (l * l) == t && l * l == t
    ensures s == 1.0
  {
    var i := 1.0 / l;
    var u := i * l;
    assert u == 1.0;
    assert s * u == s && (s * u) * u == s * u;
    calc {
      s;
      (s * u) * u;
      (s * (l * l)) * (i * i);
      (l * l) * (i * i);
      u * u;
      1.0;
    }
  }

  /** A `[f32; 4]` array: exactly four components. */
  type Arr4 = s: seq<real> | |s| == 4 witness [0.0, 0.0, 0.0, 0.0]

  /** The i-th unit vector as an array. */
  function Unit(i: nat): (u: Arr4)
    requires i < 4
    ensures u[i] == 1.0
    ensures forall j :: 0 <= j < 4 && j != i ==> u[j] == 0.0
  {
    seq(4, j => if j == i then 1.0 else 0.0)
  }

  /** Sum of col[k] * row[k] over k < n, accumulated in index order. */
  function PartialDot(col: seq<real>, row: seq<real>, n: nat): real
    requires n <= |col| && n <= |row|
  {
    if n == 0 then 0.0 else PartialDot(col, row, n - 1) + col[n - 1] * row[n - 1]
  }

  /** The four-element dot product that every product in this module uses. */
  function Dot(col: Arr4, row: Arr4): (r: real)
    ensures r == col[0] * row[0] + col[1] * row[1] + col[2] * row[2] + col[3] * row[3]
  {
    assert PartialDot(col, row, 1) == col[0] * row[0];
    assert PartialDot(col, row, 2) == col[0] * row[0] + col[1] * row[1];
    assert PartialDot(col, row, 3) == col[0] * row[0] + col[1] * row[1] + col[2] * row[2];
    PartialDot(col, row, 4)
  }

  /** `multiply_col_with_row`: a loop that accumulates col[i] * row[i]. */
  method MultiplyColWithRow(col: Arr4, row: Arr4) returns (sum: real)
    ensures sum == Dot(col, row)
  {
    sum := 0.0;
    for i := 0 to |col|
      invariant sum == PartialDot(col, row, i)
    {
      sum := sum + col[i] * row[i];
    }
  }

  /** The axis a rotation turns about. */
  datatype Axis = X | Y | Z

  datatype Vector2 = Vector2(x: real, y: real)

  /** Used only as the offset of a translation. */
  datatype Vector3 = Vector3(x: real, y: real, z: real)

  /** The value of a `Vector4`: a homogeneous point (w = 1) or direction (w = 0);
      the module never enforces either. */
  datatype Vec4 = Vec4(x: real, y: real, z: real, w: real) {

    /** `get_index`: component i in the order x, y, z, w; the source panics past 3. */
    function GetIndex(i: nat): (r: real)
      requires i < 4
      ensures r == [x, y, z, w][i]
    {
      if i == 0 then x else if i == 1 then y else if i == 2 then z else w
    }

    /** `as_array`: the components in the same order as `GetIndex`. */
    function AsArray(): (a: Arr4)
      ensures forall i :: 0 <= i < 4 ==> a[i] == GetIndex(i)
    {
      [x, y, z, w]
    }

    /** `add_scalar`'s result: every component, `w` included, plus n. */
    function Plus(n: real): (v: Vec4)
      ensures forall i | 0 <= i < 4 :: v.GetIndex(i) == GetIndex(i) + n
    {
      Vec4(x + n, y + n, z + n, w + n)
    }

    /** `subtract_scalar`'s result: every component, `w` included, minus n. */
    function Minus(n: real): (v: Vec4)
      ensures forall i | 0 <= i < 4 :: v.GetIndex(i) == GetIndex(i) - n
    {
      Vec4(x - n, y - n, z - n, w - n)
    }

    /** `multiply_scalar`'s result: every component, `w` included, times n. */
    function Times(n: real): (v: Vec4)
      ensures forall i | 0 <= i < 4 :: v.GetIndex(i) == GetIndex(i) * n
    {
      Vec4(x * n, y * n, z * n, w * n)
    }

    /** `divide_scalar`'s result: every component, `w` included, over n. */
    function Over(n: real): (v: Vec4)
      requires n != 0.0
      ensures forall i | 0 <= i < 4 :: v.GetIndex(i) == GetIndex(i) / n
    {
      Vec4(x / n, y / n, z / n, w / n)
    }

    /** The square of `get_length`: x, y and z only, `w` takes no part. */
    function LengthSquared(): (l: real)
      ensures l >= 0.0
    {
      x * x + y * y + z * z
    }

    /** `length` is what `get_length` returns for this vector: the non-negative
        square root of `LengthSquared`. */
    predicate IsLength(length: real)
    {
      length >= 0.0 && length * length == LengthSquared()
    }

    /** The vector `normalize` leaves behind: x, y and z divided by the length,
        `w` as it was. */
    function Normalized(length: real): (v: Vec4)
      requires IsLength(length) && length != 0.0
      ensures v.w == w
      ensures v.x * length == x && v.y * length == y && v.z * length == z
      ensures v.LengthSquared() == 1.0
    {
      var v := Vec4(x / length, y / length, z / length, w);
      ScaledSquares(x, y, z, length, v.x, v.y, v.z);
      UnitFromScaled(v.LengthSquared(), length, LengthSquared());
      v
    }
  }

  /** The value of a `Matrix4`: four columns. */
  datatype Mat4 = Mat4(x: Vec4, y: Vec4, z: Vec4, w: Vec4) {

    /** `Matrix4::new`: sixteen scalars taken column by column. */
    static function New(c0r0: real, c0r1: real, c0r2: real, c0r3: real,
                        c1r0: real, c1r1: real, c1r2: real, c1r3: real,
                        c2r0: real, c2r1: real, c2r2: real, c2r3: real,
                        c3r0: real, c3r1: real, c3r2: real, c3r3: real): (m: Mat4)
      ensures m.GetColumn(0) == [c0r0, c0r1, c0r2, c0r3]
      ensures m.GetColumn(1) == [c1r0, c1r1, c1r2, c1r3]
      ensures m.GetColumn(2) == [c2r0, c2r1, c2r2, c2r3]
      ensures m.GetColumn(3) == [c3r0, c3r1, c3r2, c3r3]
      ensures m.GetRow(0) == [c0r0, c1r0, c2r0, c3r0]
      ensures m.GetRow(1) == [c0r1, c1r1, c2r1, c3r1]
      ensures m.GetRow(2) == [c0r2, c1r2, c2r2, c3r2]
      ensures m.GetRow(3) == [c0r3, c1r3, c2r3, c3r3]
    {
      FromColumns(Vec4(c0r0, c0r1, c0r2, c0r3),
                  Vec4(c1r0, c1r1, c1r2, c1r3),
                  Vec4(c2r0, c2r1, c2r2, c2r3),
                  Vec4(c3r0, c3r1, c3r2, c3r3))
    }

    /** `Matrix4::from_columns`: the four vectors become the columns, in order. */
    static function FromColumns(c0: Vec4, c1: Vec4, c2: Vec4, c3: Vec4): (m: Mat4)
      ensures m.GetColumn(0) == c0.AsArray() && m.GetColumn(1) == c1.AsArray()
      ensures m.GetColumn(2) == c2.AsArray() && m.GetColumn(3) == c3.AsArray()
      ensures forall r | 0 <= r < 4 ::
        m.GetRow(r) == [c0.GetIndex(r), c1.GetIndex(r), c2.GetIndex(r), c3.GetIndex(r)]
    {
      Mat4(c0, c1, c2, c3)
    }

    /** `Matrix4::identity`: every row and every column is a unit vector. */
    static function Identity(): (m: Mat4)
      ensures forall i | 0 <= i < 4 :: m.GetRow(i) == Unit(i) && m.GetColumn(i) == Unit(i)
    {
      New(1.0, 0.0, 0.0, 0.0,
          0.0, 1.0, 0.0, 0.0,
          0.0, 0.0, 1.0, 0.0,
          0.0, 0.0, 0.0, 1.0)
    }

    /** `Matrix4::create_translation`: columns 0..2 of `base` unchanged, column 3
        replaced by the offset with `base`'s bottom-right entry kept. */
    static function CreateTranslation(base: Mat4, vec: Vector3): (m: Mat4)
      ensures forall c | 0 <= c < 3 :: m.GetColumn(c) == base.GetColumn(c)
      ensures m.GetColumn(3) == [vec.x, vec.y, vec.z, base.Entry(3, 3)]
    {
      FromColumns(base.x, base.y, base.z, Vec4(vec.x, vec.y, vec.z, base.w.w))
    }

    /** The stored column vector i. */
    function Column(i: nat): Vec4
      requires i < 4
    {
      if i == 0 then x else if i == 1 then y else if i == 2 then z else w
    }

    /** `get_column`: the stored column i as an array; the source panics past 3. */
    function GetColumn(i: nat): (col: Arr4)
      requires i < 4
      ensures forall r | 0 <= r < 4 :: col[r] == Entry(r, i)
    {
      Column(i).AsArray()
    }

    /** `get_row`: component i of each column; the source panics past 3. Row and
        column views are transposes of one another. */
    function GetRow(i: nat): (row: Arr4)
      requires i < 4
      ensures forall c | 0 <= c < 4 :: row[c] == GetColumn(c)[i]
    {
      [x.GetIndex(i), y.GetIndex(i), z.GetIndex(i), w.GetIndex(i)]
    }

    /** Entry (row r, column c) of the column-major layout. */
    function Entry(r: nat, c: nat): real
      requires r < 4 && c < 4
    {
      Column(c).GetIndex(r)
    }

    /** `Matrix4::add_scalar`'s result: n added to all sixteen entries. */
    function Plus(n: real): (m: Mat4)
      ensures forall r, c | 0 <= r < 4 && 0 <= c < 4 :: m.Entry(r, c) == Entry(r, c) + n
    {
      Mat4(x.Plus(n), y.Plus(n), z.Plus(n), w.Plus(n))
    }

    /** `Matrix4::subtract_scalar`'s result: n subtracted from all sixteen entries. */
    function Minus(n: real): (m: Mat4)
      ensures forall r, c | 0 <= r < 4 && 0 <= c < 4 :: m.Entry(r, c) == Entry(r, c) - n
    {
      Mat4(x.Minus(n), y.Minus(n), z.Minus(n), w.Minus(n))
    }

    /** `Matrix4::multiply_scalar`'s result: all sixteen entries times n. */
    function Times(n: real): (m: Mat4)
      ensures forall r, c | 0 <= r < 4 && 0 <= c < 4 :: m.Entry(r, c) == Entry(r, c) * n
    {
      var m := Mat4(x.Times(n), y.Times(n), z.Times(n), w.Times(n));
      forall r, c | 0 <= r < 4 && 0 <= c < 4
        ensures m.Entry(r, c) == Entry(r, c) * n
      {
        assert m.Column(c) == Column(c).Times(n);
      }
      m
    }

    /** `Matrix4::divide_scalar`'s result: all sixteen entries over n. */
    function Over(n: real): (m: Mat4)
      requires n != 0.0
      ensures forall r, c | 0 <= r < 4 && 0 <= c < 4 :: m.Entry(r, c) == Entry(r, c) / n
    {
      Mat4(x.Over(n), y.Over(n), z.Over(n), w.Over(n))
    }
  }

  /** Row r of `a` against column c of `b`: the sum a[r][k] · b[k][c] over k. */
  function RowByColumn(a: Mat4, b: Mat4, r: nat, c: nat): real
    requires r < 4 && c < 4
  {
    a.Entry(r, 0) * b.Entry(0, c) + a.Entry(r, 1) * b.Entry(1, c)
    + a.Entry(r, 2) * b.Entry(2, c) + a.Entry(r, 3) * b.Entry(3, c)
  }

  /** Column c of the matrix `multiply_matrix` produces: for each row r of the
      receiver `a`, that row against column c of the argument `b`. */
  function ProductColumn(a: Mat4, b: Mat4, c: nat): (col: Vec4)
    requires c < 4
    ensures forall r | 0 <= r < 4 :: col.GetIndex(r) == RowByColumn(a, b, r, c)
  {
    Vec4(Dot(b.GetColumn(c), a.GetRow(0)),
         Dot(b.GetColumn(c), a.GetRow(1)),
         Dot(b.GetColumn(c), a.GetRow(2)),
         Dot(b.GetColumn(c), a.GetRow(3)))
  }

  /** The matrix `a.multiply_matrix(b)` leaves in `a`: entry (r, c) is row r of
      the receiver `a` against column c of the argument `b`, so the result is a × b. */
  function Product(a: Mat4, b: Mat4): (p: Mat4)
    ensures forall r, c | 0 <= r < 4 && 0 <= c < 4 :: p.Entry(r, c) == RowByColumn(a, b, r, c)
  {
    var p := Mat4(ProductColumn(a, b, 0), ProductColumn(a, b, 1), ProductColumn(a, b, 2), ProductColumn(a, b, 3));
    forall r, c | 0 <= r < 4 && 0 <= c < 4
      ensures p.Entry(r, c) == RowByColumn(a, b, r, c)
    {
      assert p.Column(c) == ProductColumn(a, b, c) by {
        if c == 0 {} else if c == 1 {} else if c == 2 {} else {}
      }
    }
    p
  }

  /** The textbook product m · v, every component computed from the original v. */
  function Transform(m: Mat4, v: Vec4): (r: Vec4)
    ensures forall i | 0 <= i < 4 ::
      r.GetIndex(i) == m.Entry(i, 0) * v.x + m.Entry(i, 1) * v.y
                     + m.Entry(i, 2) * v.z + m.Entry(i, 3) * v.w
  {
    Vec4(Dot(v.AsArray(), m.GetRow(0)), Dot(v.AsArray(), m.GetRow(1)),
         Dot(v.AsArray(), m.GetRow(2)), Dot(v.AsArray(), m.GetRow(3)))
  }

  /** What `translate` and `rotate` do with a matrix: component i is row i of `m`
      against the vector as it stands after components 0..i-1 were overwritten. */
  function SequentialTransform(m: Mat4, v: Vec4): (r: Vec4)
    ensures r.x == m.Entry(0, 0) * v.x + m.Entry(0, 1) * v.y + m.Entry(0, 2) * v.z + m.Entry(0, 3) * v.w
    ensures r.y == m.Entry(1, 0) * r.x + m.Entry(1, 1) * v.y + m.Entry(1, 2) * v.z + m.Entry(1, 3) * v.w
    ensures r.z == m.Entry(2, 0) * r.x + m.Entry(2, 1) * r.y + m.Entry(2, 2) * v.z + m.Entry(2, 3) * v.w
    ensures r.w == m.Entry(3, 0) * r.x + m.Entry(3, 1) * r.y + m.Entry(3, 2) * r.z + m.Entry(3, 3) * v.w
  {
    var v1 := v.(x := Dot(v.AsArray(), m.GetRow(0)));
    var v2 := v1.(y := Dot(v1.AsArray(), m.GetRow(1)));
    var v3 := v2.(z := Dot(v2.AsArray(), m.GetRow(2)));
    v3.(w := Dot(v3.AsArray(), m.GetRow(3)))
  }

  /** The matrix `rotate` builds for an axis, given c = cos(angle) and
      s = sin(angle). The last row is (0, 0, 0, 1) and the row of the axis
      itself is that axis's unit vector. */
  function RotationMatrix(axis: Axis, c: real, s: real): (m: Mat4)
    ensures m.GetRow(3) == Unit(3)
    ensures axis == X ==> m.GetRow(0) == Unit(0)
    ensures axis == Y ==> m.GetRow(1) == Unit(1)
    ensures axis == Z ==> m.GetRow(2) == Unit(2)
  {
    match axis
    case X =>
      Mat4.FromColumns(Vec4(1.0, 0.0, 0.0, 0.0),
                       Vec4(0.0, c, s, 0.0),
                       Vec4(0.0, -1.0 * s, c, 0.0),
                       Vec4(0.0, 0.0, 0.0, 1.0))
    case Y =>
      Mat4.FromColumns(Vec4(c, 0.0, -1.0 * s, 0.0),
                       Vec4(0.0, 1.0, 0.0, 0.0),
                       Vec4(s, 0.0, c, 0.0),
                       Vec4(0.0, 0.0, 0.0, 1.0))
    case Z =>
      Mat4.FromColumns(Vec4(c, s, 0.0, 0.0),
                       Vec4(-1.0 * s, c, 0.0, 0.0),
                       Vec4(0.0, 0.0, 1.0, 0.0),
                       Vec4(0.0, 0.0, 0.0, 1.0))
  }

  /** A `Vector4` owned by a mutable binding or by a `Matrix4`. */
  class Vector4 {
    var x: real
    var y: real
    var z: real
    var w: real

    /** `Vector4::new`: no validation of any component. */
    constructor (x: real, y: real, z: real, w: real)
      ensures Value() == Vec4(x, y, z, w)
    {
      this.x, this.y, this.z, this.w := x, y, z, w;
    }

    function Value(): Vec4
      reads this
    {
      Vec4(x, y, z, w)
    }

    /** Adds n to all four components, `w` included. */
    method AddScalar(n: real)
      modifies this
      ensures Value() == old(Value()).Plus(n)
    {
      x := x + n;
      y := y + n;
      z := z + n;
      w := w + n;
    }

    /** Subtracts n from all four components, `w` included. */
    method SubtractScalar(n: real)
      modifies this
      ensures Value() == old(Value()).Minus(n)
    {
      x := x - n;
      y := y - n;
      z := z - n;
      w := w - n;
    }

    /** Multiplies all four components, `w` included, by n. */
    method MultiplyScalar(n: real)
      modifies this
      ensures Value() == old(Value()).Times(n)
    {
      x := x * n;
      y := y * n;
      z := z * n;
      w := w * n;
    }

    /** Divides all four components, `w` included, by n. */
    method DivideScalar(n: real)
      requires n != 0.0
      modifies this
      ensures Value() == old(Value()).Over(n)
    {
      x := x / n;
      y := y / n;
      z := z / n;
      w := w / n;
    }

    /** `translate`: each line re-reads the vector, so row i of `trans` meets the
        components already overwritten by rows 0..i-1. */
    method Translate(trans: Mat4)
      modifies this
      ensures Value() == SequentialTransform(trans, old(Value()))
    {
      x := MultiplyColWithRow(Value().AsArray(), trans.GetRow(0));
      y := MultiplyColWithRow(Value().AsArray(), trans.GetRow(1));
      z := MultiplyColWithRow(Value().AsArray(), trans.GetRow(2));
      w := MultiplyColWithRow(Value().AsArray(), trans.GetRow(3));
    }

    /** `rotate`: builds the rotation matrix for `axis` from c = cos(angle) and
        s = sin(angle), then applies it line by line exactly as `Translate` does. */
    method Rotate(axis: Axis, c: real, s: real)
      modifies this
      ensures Value() == SequentialTransform(RotationMatrix(axis, c, s), old(Value()))
    {
      var mat := RotationMatrix(axis, c, s);
      x := MultiplyColWithRow(Value().AsArray(), mat.GetRow(0));
      y := MultiplyColWithRow(Value().AsArray(), mat.GetRow(1));
      z := MultiplyColWithRow(Value().AsArray(), mat.GetRow(2));
      w := MultiplyColWithRow(Value().AsArray(), mat.GetRow(3));
    }

    /** `normalize`, with `length` the value `get_length` computes: x, y and z are
        divided by it and `w` is left alone. */
    method Normalize(length: real)
      requires Value().IsLength(length) && length != 0.0
      modifies this
      ensures Value() == old(Value()).Normalized(length)
    {
      x := x / length;
      y := y / length;
      z := z / length;
    }
  }

  /** A `Matrix4` owned by a mutable binding: four column vectors it owns outright. */
  class Matrix4 {
    var x: Vector4
    var y: Vector4
    var z: Vector4
    var w: Vector4

    /** The columns are four distinct objects, as owned fields are. */
    ghost predicate Valid()
      reads this
    {
      x != y && x != z && x != w && y != z && y != w && z != w
    }

    function Value(): Mat4
      reads this, x, y, z, w
    {
      Mat4(x.Value(), y.Value(), z.Value(), w.Value())
    }

    /** Binds a matrix value (from `new`, `from_columns`, `identity` or
        `create_translation`) to fresh column objects. */
    constructor (m: Mat4)
      ensures Valid() && Value() == m
      ensures fresh(x) && fresh(y) && fresh(z) && fresh(w)
    {
      x := new Vector4(m.x.x, m.x.y, m.x.z, m.x.w);
      y := new Vector4(m.y.x, m.y.y, m.y.z, m.y.w);
      z := new Vector4(m.z.x, m.z.y, m.z.z, m.z.w);
      w := new Vector4(m.w.x, m.w.y, m.w.z, m.w.w);
    }

    /** Adds n to all sixteen entries, column by column. */
    method AddScalar(n: real)
      requires Valid()
      modifies x, y, z, w
      ensures Valid()
      ensures Value() == old(Value()).Plus(n)
    {
      x.AddScalar(n);
      y.AddScalar(n);
      z.AddScalar(n);
      w.AddScalar(n);
    }

    /** Subtracts n from all sixteen entries, column by column. */
    method SubtractScalar(n: real)
      requires Valid()
      modifies x, y, z, w
      ensures Valid()
      ensures Value() == old(Value()).Minus(n)
    {
      x.SubtractScalar(n);
      y.SubtractScalar(n);
      z.SubtractScalar(n);
      w.SubtractScalar(n);
    }

    /** Multiplies all sixteen entries by n, column by column. */
    method MultiplyScalar(n: real)
      requires Valid()
      modifies x, y, z, w
      ensures Valid()
      ensures Value() == old(Value()).Times(n)
    {
      x.MultiplyScalar(n);
      y.MultiplyScalar(n);
      z.MultiplyScalar(n);
      w.MultiplyScalar(n);
    }

    /** Divides all sixteen entries by n, column by column. */
    method DivideScalar(n: real)
      requires Valid() && n != 0.0
      modifies x, y, z, w
      ensures Valid()
      ensures Value() == old(Value()).Over(n)
    {
      x.DivideScalar(n);
      y.DivideScalar(n);
      z.DivideScalar(n);
      w.DivideScalar(n);
    }

    /** `multiply_matrix`: all four new columns are computed from the receiver as
        it was on entry, then assigned; the receiver becomes self × m. */
    method MultiplyMatrix(m: Mat4)
      requires Valid()
      modifies this
      ensures Valid() && fresh(x) && fresh(y) && fresh(z) && fresh(w)
      ensures Value() == Product(old(Value()), m)
    {
      var rows := Value();
      var col0 := ColumnOfProduct(rows, m, 0);
      var col1 := ColumnOfProduct(rows, m, 1);
      var col2 := ColumnOfProduct(rows, m, 2);
      var col3 := ColumnOfProduct(rows, m, 3);
      x, y, z, w := col0, col1, col2, col3;
    }
  }

  /** One `let colN = Vector4::new(...)` block of `multiply_matrix`: column c of
      `m` against each row of `rows`. */
  method ColumnOfProduct(rows: Mat4, m: Mat4, c: nat) returns (col: Vector4)
    requires c < 4
    ensures fresh(col) && col.Value() == ProductColumn(rows, m, c)
  {
    var r0 := MultiplyColWithRow(m.GetColumn(c), rows.GetRow(0));
    var r1 := MultiplyColWithRow(m.GetColumn(c), rows.GetRow(1));
    var r2 := MultiplyColWithRow(m.GetColumn(c), rows.GetRow(2));
    var r3 := MultiplyColWithRow(m.GetColumn(c), rows.GetRow(3));
    col := new Vector4(r0, r1, r2, r3);
  }

  /** `Matrix2`: two `Vector2` columns; construction only. */
  datatype Matrix2 = Matrix2(x: Vector2, y: Vector2) {

    /** Entry (row r, column c). */
    function Entry(r: nat, c: nat): real
      requires r < 2 && c < 2
    {
      var col := if c == 0 then x else y;
      if r == 0 then col.x else col.y
    }

    /** `Matrix2::new`: four scalars taken column by column. */
    static function New(c0r0: real, c0r1: real, c1r0: real, c1r1: real): (m: Matrix2)
      ensures m.Entry(0, 0) == c0r0 && m.Entry(1, 0) == c0r1
      ensures m.Entry(0, 1) == c1r0 && m.Entry(1, 1) == c1r1
    {
      FromColumns(Vector2(c0r0, c0r1), Vector2(c1r0, c1r1))
    }

    /** `Matrix2::from_columns`. */
    static function FromColumns(c0: Vector2, c1: Vector2): (m: Matrix2)
      ensures forall r | 0 <= r < 2 :: m.Entry(r, 0) == (if r == 0 then c0.x else c0.y)
      ensures forall r | 0 <= r < 2 :: m.Entry(r, 1) == (if r == 0 then c1.x else c1.y)
    {
      Matrix2(c0, c1)
    }

    /** `Matrix2::identity`: ones on the diagonal, zeros elsewhere. */
    static function Identity(): (m: Matrix2)
      ensures forall r, c | 0 <= r < 2 && 0 <= c < 2 :: m.Entry(r, c) == if r == c then 1.0 else 0.0
    {
      New(1.0, 0.0, 0.0, 1.0)
    }
  }

  /** `Matrix3`: three `Vector3` columns; construction only. */
  datatype Matrix3 = Matrix3(x: Vector3, y: Vector3, z: Vector3) {

    /** Entry (row r, column c). */
    function Entry(r: nat, c: nat): real
      requires r < 3 && c < 3
    {
      var col := if c == 0 then x else if c == 1 then y else z;
      if r == 0 then col.x else if r == 1 then col.y else col.z
    }

    /** `Matrix3::new`: nine scalars taken column by column. */
    static function New(c0r0: real, c0r1: real, c0r2: real,
                        c1r0: real, c1r1: real, c1r2: real,
                        c2r0: real, c2r1: real, c2r2: real): (m: Matrix3)
      ensures m.Entry(0, 0) == c0r0 && m.Entry(1, 0) == c0r1 && m.Entry(2, 0) == c0r2
      ensures m.Entry(0, 1) == c1r0 && m.Entry(1, 1) == c1r1 && m.Entry(2, 1) == c1r2
      ensures m.Entry(0, 2) == c2r0 && m.Entry(1, 2) == c2r1 && m.Entry(2, 2) == c2r2
    {
      FromColumns(Vector3(c0r0, c0r1, c0r2), Vector3(c1r0, c1r1, c1r2), Vector3(c2r0, c2r1, c2r2))
    }

    /** `Matrix3::from_columns`. */
    static function FromColumns(c0: Vector3, c1: Vector3, c2: Vector3): (m: Matrix3)
      ensures m.Entry(0, 0) == c0.x && m.Entry(1, 0) == c0.y && m.Entry(2, 0) == c0.z
      ensures m.Entry(0, 1) == c1.x && m.Entry(1, 1) == c1.y && m.Entry(2, 1) == c1.z
      ensures m.Entry(0, 2) == c2.x && m.Entry(1, 2) == c2.y && m.Entry(2, 2) == c2.z
    {
      Matrix3(c0, c1, c2)
    }

    /** `Matrix3::identity`: ones on the diagonal, zeros elsewhere. */
    static function Identity(): (m: Matrix3)
      ensures forall r, c | 0 <= r < 3 && 0 <= c < 3 :: m.Entry(r, c) == if r == c then 1.0 else 0.0
    {
      New(1.0, 0.0, 0.0, 0.0, 1.0, 0.0, 0.0, 0.0, 1.0)
    }
  }
}
