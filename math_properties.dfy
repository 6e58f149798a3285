/** Facts about the transforms of module `Math` that relate several operations:
    the matrix product and the identity, the operand order of the product, the
    line-by-line application that `translate` and `rotate` share, and the worked
    examples of the source's unit tests. */
module MathProperties {
  import opened Math

  /** Two matrices with the same sixteen entries are the same matrix. */
  lemma EntriesDetermine(a: Mat4, b: Mat4)
    requires forall r, c | 0 <= r < 4 && 0 <= c < 4 :: a.Entry(r, c) == b.Entry(r, c)
    ensures a == b
  {
    forall c: nat | c < 4
      ensures a.Column(c) == b.Column(c)
    {
      assert a.Entry(0, c) == b.Entry(0, c) && a.Entry(1, c) == b.Entry(1, c);
      assert a.Entry(2, c) == b.Entry(2, c) && a.Entry(3, c) == b.Entry(3, c);
    }
    assert a.Column(0) == b.Column(0) && a.Column(1) == b.Column(1);
    assert a.Column(2) == b.Column(2) && a.Column(3) == b.Column(3);
  }

  /** Entry (r, c) of the identity is 1 on the diagonal and 0 elsewhere. */
  lemma IdentityEntry(r: nat, c: nat)
    requires r < 4 && c < 4
    ensures Mat4.Identity().Entry(r, c) == if r == c then 1.0 else 0.0
  {
    assert Mat4.Identity().GetColumn(c) == Unit(c);
    assert Mat4.Identity().Entry(r, c) == Mat4.Identity().GetColumn(c)[r];
  }

  /** `m.multiply_matrix(Matrix4::identity())` leaves `m` as it was. */
  lemma {:induction false} ProductIdentityRight(m: Mat4)
    ensures Product(m, Mat4.Identity()) == m
  {
    var p := Product(m, Mat4.Identity());
    forall r: nat, c: nat | r < 4 && c < 4
      ensures p.Entry(r, c) == m.Entry(r, c)
    {
      IdentityEntry(0, c);
      IdentityEntry(1, c);
      IdentityEntry(2, c);
      IdentityEntry(3, c);
    }
    EntriesDetermine(p, m);
  }

  /** `Matrix4::identity()` multiplied by `m` is `m`. */
  lemma {:induction false} ProductIdentityLeft(m: Mat4)
    ensures Product(Mat4.Identity(), m) == m
  {
    var p := Product(Mat4.Identity(), m);
    forall r: nat, c: nat | r < 4 && c < 4
      ensures p.Entry(r, c) == m.Entry(r, c)
    {
      IdentityEntry(r, 0);
      IdentityEntry(r, 1);
      IdentityEntry(r, 2);
      IdentityEntry(r, 3);
    }
    EntriesDetermine(p, m);
  }

  /** Adding a scalar to every entry and then subtracting it again, or
      multiplying by a nonzero scalar and then dividing by it, gives back the
      matrix: the scalar operations are inverse pairs. */
  lemma ScalarRoundTrips(m: Mat4, n: real)
    ensures m.Plus(n).Minus(n) == m
    ensures n != 0.0 ==> m.Times(n).Over(n) == m
  {
    ColumnRoundTrips(m.x, n);
    ColumnRoundTrips(m.y, n);
    ColumnRoundTrips(m.z, n);
    ColumnRoundTrips(m.w, n);
  }

  /** The same two round trips on one vector. */
  lemma ColumnRoundTrips(v: Vec4, n: real)
    ensures v.Plus(n).Minus(n) == v
    ensures n != 0.0 ==> v.Times(n).Over(n) == v
  {
    if n != 0.0 {
      var t := v.Times(n);
      assert t == Vec4(v.x * n, v.y * n, v.z * n, v.w * n);
      assert t.Over(n) == Vec4(v.x * n / n, v.y * n / n, v.z * n / n, v.w * n / n);
      assert v.x * n / n == v.x && v.y * n / n == v.y;
      assert v.z * n / n == v.z && v.w * n / n == v.w;
    }
  }

  /** The first operand of the unit test of `multiply_matrix`. */
  function TestLeft(): Mat4
  {
    Mat4.New(2.0, 1.0, 6.0, 1.0,
             3.0, 2.0, 7.0, 2.0,
             4.0, 3.0, 8.0, 3.0,
             5.0, 4.0, 9.0, 4.0)
  }

  /** The second operand of the unit test of `multiply_matrix`. */
  function TestRight(): Mat4
  {
    Mat4.New(5.0, 5.0, 6.0, 6.0,
             5.0, 5.0, 6.0, 6.0,
             5.0, 5.0, 6.0, 6.0,
             5.0, 5.0, 6.0, 6.0)
  }

  /** The unit test of `multiply_matrix`: row 0 of the product is all 79 and
      column 0 is (79, 57, 167, 57). */
  lemma MultiplyExample()
    ensures Product(TestLeft(), TestRight()).GetRow(0) == [79.0, 79.0, 79.0, 79.0]
    ensures Product(TestLeft(), TestRight()).GetColumn(0) == [79.0, 57.0, 167.0, 57.0]
  {
    var a, b := TestLeft(), TestRight();
    assert a.GetRow(0) == [2.0, 3.0, 4.0, 5.0];
    assert a.GetRow(1) == [1.0, 2.0, 3.0, 4.0];
    assert a.GetRow(2) == [6.0, 7.0, 8.0, 9.0];
    assert a.GetRow(3) == [1.0, 2.0, 3.0, 4.0];
  }

  /** Swapping receiver and argument changes the result: for the same two test
      matrices, entry (0, 0) is 79 one way round and 50 the other. */
  lemma ProductOrderMatters()
    ensures Product(TestLeft(), TestRight()).Entry(0, 0) == 79.0
    ensures Product(TestRight(), TestLeft()).Entry(0, 0) == 50.0
    ensures Product(TestLeft(), TestRight()) != Product(TestRight(), TestLeft())
  {
  }

  /** The matrix of the unit tests of `get_row` and `get_column`: four
      identical columns (1, 2, 3, 4). */
  function RepeatedColumns(): Mat4
  {
    Mat4.New(1.0, 2.0, 3.0, 4.0, 1.0, 2.0, 3.0, 4.0,
             1.0, 2.0, 3.0, 4.0, 1.0, 2.0, 3.0, 4.0)
  }

  /** The unit tests of `get_row` and `get_column`. */
  lemma RowColumnExample()
    ensures RepeatedColumns().GetRow(2) == [3.0, 3.0, 3.0, 3.0]
    ensures RepeatedColumns().GetColumn(0) == [1.0, 2.0, 3.0, 4.0]
  {
  }

  /** The unit test of `multiply_col_with_row`: 13.93, exactly, over the reals. */
  lemma DotExample()
    ensures Dot([4.0, 5.0, 3.5, 0.7], [1.3, 1.2, 0.7, 0.4]) == 13.93
  {
  }

  /** Applying line by line agrees with the textbook product whenever no row i
      reads a component j < i, that is, when every entry below the diagonal is 0. */
  lemma SequentialAgreesWhenUpperTriangular(m: Mat4, v: Vec4)
    requires forall r, c | 0 <= c < r < 4 :: m.Entry(r, c) == 0.0
    ensures SequentialTransform(m, v) == Transform(m, v)
  {
    var t := Transform(m, v);
    assert m.Entry(1, 0) == 0.0;
    assert m.Entry(2, 0) == 0.0 && m.Entry(2, 1) == 0.0;
    assert m.Entry(3, 0) == 0.0 && m.Entry(3, 1) == 0.0 && m.Entry(3, 2) == 0.0;
    assert t.GetIndex(0) == t.x && t.GetIndex(1) == t.y;
    assert t.GetIndex(2) == t.z && t.GetIndex(3) == t.w;
  }

  /** Translating by the identity leaves every vector unchanged. */
  lemma IdentityTranslateUnchanged(v: Vec4)
    ensures SequentialTransform(Mat4.Identity(), v) == v
  {
    var i := Mat4.Identity();
    assert i.GetRow(0) == Unit(0) && i.GetRow(1) == Unit(1);
    assert i.GetRow(2) == Unit(2) && i.GetRow(3) == Unit(3);
  }

  /** `translate` by `create_translation(identity(), t)` moves x, y and z by the
      offset scaled by w and keeps w, even though each line re-reads the vector;
      it agrees with the textbook product. */
  lemma TranslateFromIdentity(t: Vector3, v: Vec4)
    ensures SequentialTransform(Mat4.CreateTranslation(Mat4.Identity(), t), v)
         == Vec4(v.x + t.x * v.w, v.y + t.y * v.w, v.z + t.z * v.w, v.w)
    ensures SequentialTransform(Mat4.CreateTranslation(Mat4.Identity(), t), v)
         == Transform(Mat4.CreateTranslation(Mat4.Identity(), t), v)
  {
    var m := Mat4.CreateTranslation(Mat4.Identity(), t);
    var i := Mat4.Identity();
    assert i.GetColumn(0) == Unit(0) && i.GetColumn(1) == Unit(1);
    assert i.GetColumn(2) == Unit(2) && i.GetColumn(3) == Unit(3);
    assert m.GetRow(0) == [1.0, 0.0, 0.0, t.x];
    assert m.GetRow(1) == [0.0, 1.0, 0.0, t.y];
    assert m.GetRow(2) == [0.0, 0.0, 1.0, t.z];
    assert m.GetRow(3) == [0.0, 0.0, 0.0, 1.0];
    SequentialAgreesWhenUpperTriangular(m, v);
  }

  /** The unit test of `translate`: (1, 0, 0, 1) by the offset (1, 1, 0) becomes
      (2, 1, 0, 1). */
  lemma TranslateExample()
    ensures SequentialTransform(Mat4.CreateTranslation(Mat4.Identity(), Vector3(1.0, 1.0, 0.0)),
                                Vec4(1.0, 0.0, 0.0, 1.0))
         == Vec4(2.0, 1.0, 0.0, 1.0)
  {
    TranslateFromIdentity(Vector3(1.0, 1.0, 0.0), Vec4(1.0, 0.0, 0.0, 1.0));
  }

  /** `rotate` never changes w, and leaves the component of its own axis alone. */
  lemma RotateFixesAxis(axis: Axis, c: real, s: real, v: Vec4)
    ensures SequentialTransform(RotationMatrix(axis, c, s), v).w == v.w
    ensures axis == X ==> SequentialTransform(RotationMatrix(axis, c, s), v).x == v.x
    ensures axis == Y ==> SequentialTransform(RotationMatrix(axis, c, s), v).y == v.y
    ensures axis == Z ==> SequentialTransform(RotationMatrix(axis, c, s), v).z == v.z
  {
  }

  /** As written, `rotate` is not a rotation about any axis: a quarter turn
      (cos = 0, sin = 1) sends a vector of length 1 to the origin's (0, 0, 0). */
  lemma SequentialRotateLosesLength(axis: Axis)
    ensures var v := if axis == X then Vec4(0.0, 1.0, 0.0, 1.0) else Vec4(1.0, 0.0, 0.0, 1.0);
            v.LengthSquared() == 1.0 &&
            SequentialTransform(RotationMatrix(axis, 0.0, 1.0), v) == Vec4(0.0, 0.0, 0.0, 1.0)
  {
    var m := RotationMatrix(axis, 0.0, 1.0);
    match axis
    case X =>
      var v := Vec4(0.0, 1.0, 0.0, 1.0);
      assert m.GetRow(0) == [1.0, 0.0, 0.0, 0.0];
      assert m.GetRow(1) == [0.0, 0.0, -1.0, 0.0];
      assert m.GetRow(2) == [0.0, 1.0, 0.0, 0.0];
      assert SequentialTransform(m, v) == Vec4(0.0, 0.0, 0.0, 1.0);
    case Y =>
      var v := Vec4(1.0, 0.0, 0.0, 1.0);
      assert m.GetRow(0) == [0.0, 0.0, 1.0, 0.0];
      assert m.GetRow(1) == [0.0, 1.0, 0.0, 0.0];
      assert m.GetRow(2) == [-1.0, 0.0, 0.0, 0.0];
      assert SequentialTransform(m, v) == Vec4(0.0, 0.0, 0.0, 1.0);
    case Z =>
      var v := Vec4(1.0, 0.0, 0.0, 1.0);
      assert m.GetRow(0) == [0.0, -1.0, 0.0, 0.0];
      assert m.GetRow(1) == [1.0, 0.0, 0.0, 0.0];
      assert m.GetRow(2) == [0.0, 0.0, 1.0, 0.0];
      assert SequentialTransform(m, v) == Vec4(0.0, 0.0, 0.0, 1.0);
  }

  /** The rotation the source evidently intends, every component computed from
      the vector as it was on entry, keeps the length of (x, y, z) and keeps w. */
  lemma RotatedPreservesLength(axis: Axis, c: real, s: real, v: Vec4)
    requires c * c + s * s == 1.0
    ensures Transform(RotationMatrix(axis, c, s), v).LengthSquared() == v.LengthSquared()
    ensures Transform(RotationMatrix(axis, c, s), v).w == v.w
  {
    var m := RotationMatrix(axis, c, s);
    var r := Transform(m, v);
    assert r.GetIndex(3) == r.w && r.GetIndex(0) == r.x;
    assert r.GetIndex(1) == r.y && r.GetIndex(2) == r.z;
  }

  /** The unit tests of the in-place scalar operations, replayed on `Vector4`. */
  method ScalarArithmeticScenario()
  {
    var v := new Vector4(0.5, 0.5, 0.6, 0.2);
    v.AddScalar(2.0);
    assert v.Value().GetIndex(0) == 2.5 && v.Value().GetIndex(1) == 2.5;
    assert v.Value().GetIndex(2) == 2.6 && v.Value().GetIndex(3) == 2.2;

    var u := new Vector4(1.0, 1.0, 1.0, 1.0);
    u.SubtractScalar(2.0);
    assert u.Value().GetIndex(0) == -1.0 && u.Value().GetIndex(3) == -1.0;

    var t := new Vector4(2.0, 2.0, 2.0, 2.0);
    t.MultiplyScalar(0.5);
    assert t.Value().GetIndex(1) == 1.0 && t.Value().GetIndex(2) == 1.0;
  }

  /** The unit tests of `translate` and `multiply_matrix`, replayed on the
      in-place methods. */
  method TransformScenario()
  {
    var v := new Vector4(1.0, 0.0, 0.0, 1.0);
    v.Translate(Mat4.CreateTranslation(Mat4.Identity(), Vector3(1.0, 1.0, 0.0)));
    TranslateExample();
    assert v.Value() == Vec4(2.0, 1.0, 0.0, 1.0);

    var m1 := new Matrix4(TestLeft());
    m1.MultiplyMatrix(TestRight());
    MultiplyExample();
    assert m1.Value().GetRow(0) == [79.0, 79.0, 79.0, 79.0];
    assert m1.Value().GetColumn(0) == [79.0, 57.0, 167.0, 57.0];

    var id := new Matrix4(TestLeft());
    id.MultiplyMatrix(Mat4.Identity());
    ProductIdentityRight(TestLeft());
    assert id.Value() == TestLeft();
  }
}
