/** The 2x2 coupling matrix of a differential swerve module.

    The forward matrix maps the motor rates [motor0, motor1] to the module's
    logical rates [azimuthSpeed, wheelSpeed]; the inverse maps them back.
    Exact arithmetic over `real` stands in for the general matrix library,
    and the inverse is the closed form, defined only for a non-zero
    determinant. */
module CouplingMatrix {

  /** A 2x2 matrix, entry `mRC` in row R and column C. */
  datatype Matrix2 = Matrix2(m00: real, m01: real, m10: real, m11: real)
  {
    /** The entry in row `row` and column `col`. */
    function At(row: nat, col: nat): real
      requires row < 2 && col < 2
    {
      if row == 0 then (if col == 0 then m00 else m01)
      else (if col == 0 then m10 else m11)
    }
  }

  /** A column vector [x0, x1]. */
  datatype Vector2 = Vector2(x0: real, x1: real)

  function Identity(): Matrix2 {
    Matrix2(1.0, 0.0, 0.0, 1.0)
  }

  function Det(m: Matrix2): real {
    m.m00 * m.m11 - m.m01 * m.m10
  }

  /** The matrix product a * b. */
  function Mul(a: Matrix2, b: Matrix2): Matrix2 {
    Matrix2(a.m00 * b.m00 + a.m01 * b.m10, a.m00 * b.m01 + a.m01 * b.m11,
            a.m10 * b.m00 + a.m11 * b.m10, a.m10 * b.m01 + a.m11 * b.m11)
  }

  /** The matrix-vector product m * v. */
  function Apply(m: Matrix2, v: Vector2): Vector2 {
    Vector2(m.m00 * v.x0 + m.m01 * v.x1, m.m10 * v.x0 + m.m11 * v.x1)
  }

  /** The closed-form inverse of a non-singular 2x2 matrix. */
  function Inverse(m: Matrix2): Matrix2
    requires Det(m) != 0.0
  {
    var d := Det(m);
    Matrix2(m.m11 / d, -m.m01 / d, -m.m10 / d, m.m00 / d)
  }

  /** The determinant is multiplicative. */
  lemma DetOfProduct(a: Matrix2, b: Matrix2)
    ensures Det(Mul(a, b)) == Det(a) * Det(b)
  {
    var p := Mul(a, b);
    calc {
      Det(p);
      (a.m00 * b.m00 + a.m01 * b.m10) * (a.m10 * b.m01 + a.m11 * b.m11)
        - (a.m00 * b.m01 + a.m01 * b.m11) * (a.m10 * b.m00 + a.m11 * b.m10);
      a.m00 * a.m11 * (b.m00 * b.m11 - b.m01 * b.m10)
        - a.m01 * a.m10 * (b.m00 * b.m11 - b.m01 * b.m10);
      Det(a) * Det(b);
    }
  }

  /** Multiplying by a product is applying its factors in turn. */
  lemma ApplyProduct(a: Matrix2, b: Matrix2, v: Vector2)
    ensures Apply(Mul(a, b), v) == Apply(a, Apply(b, v))
  {
  }

  /** One entry of a product of three: row [x0, x1] of a times the column
      [p0, p1] of a * b against column [z0, z1] of c, equals the same row
      of a times the column [q0, q1] of b * c. */
  lemma EntryAssociative(x0: real, x1: real, y0: real, y1: real, w0: real, w1: real, z0: real, z1: real,
                         p0: real, p1: real, q0: real, q1: real)
    requires p0 == x0 * y0 + x1 * w0 && p1 == x0 * y1 + x1 * w1
    requires q0 == y0 * z0 + y1 * z1 && q1 == w0 * z0 + w1 * z1
    ensures p0 * z0 + p1 * z1 == x0 * q0 + x1 * q1
  {
    calc {
      p0 * z0 + p1 * z1;
      (x0 * y0 + x1 * w0) * z0 + (x0 * y1 + x1 * w1) * z1;
      x0 * y0 * z0 + x1 * w0 * z0 + x0 * y1 * z1 + x1 * w1 * z1;
      x0 * (y0 * z0 + y1 * z1) + x1 * (w0 * z0 + w1 * z1);
      x0 * q0 + x1 * q1;
    }
  }

  lemma MulAssociative(a: Matrix2, b: Matrix2, c: Matrix2)
    ensures Mul(Mul(a, b), c) == Mul(a, Mul(b, c))
  {
    var ab, bc := Mul(a, b), Mul(b, c);
    var l, r := Mul(ab, c), Mul(a, bc);
    assert l.m00 == r.m00 by {
      EntryAssociative(a.m00, a.m01, b.m00, b.m01, b.m10, b.m11, c.m00, c.m10, ab.m00, ab.m01, bc.m00, bc.m10);
    }
    assert l.m01 == r.m01 by {
      EntryAssociative(a.m00, a.m01, b.m00, b.m01, b.m10, b.m11, c.m01, c.m11, ab.m00, ab.m01, bc.m01, bc.m11);
    }
    assert l.m10 == r.m10 by {
      EntryAssociative(a.m10, a.m11, b.m00, b.m01, b.m10, b.m11, c.m00, c.m10, ab.m10, ab.m11, bc.m00, bc.m10);
    }
    assert l.m11 == r.m11 by {
      EntryAssociative(a.m10, a.m11, b.m00, b.m01, b.m10, b.m11, c.m01, c.m11, ab.m10, ab.m11, bc.m01, bc.m11);
    }
  }

  /** The closed form is a two-sided inverse. */
  lemma InverseIsTwoSided(m: Matrix2)
    requires Det(m) != 0.0
    ensures Mul(m, Inverse(m)) == Identity()
    ensures Mul(Inverse(m), m) == Identity()
  {
    var d := Det(m);
    var n := Inverse(m);
    assert m.m00 * n.m00 + m.m01 * n.m10 == (m.m00 * m.m11 - m.m01 * m.m10) / d == 1.0;
    assert m.m00 * n.m01 + m.m01 * n.m11 == (m.m01 * m.m00 - m.m00 * m.m01) / d == 0.0;
    assert m.m10 * n.m00 + m.m11 * n.m10 == (m.m10 * m.m11 - m.m11 * m.m10) / d == 0.0;
    assert m.m10 * n.m01 + m.m11 * n.m11 == (m.m00 * m.m11 - m.m01 * m.m10) / d == 1.0;
    assert n.m00 * m.m00 + n.m01 * m.m10 == (m.m00 * m.m11 - m.m01 * m.m10) / d == 1.0;
    assert n.m00 * m.m01 + n.m01 * m.m11 == (m.m11 * m.m01 - m.m01 * m.m11) / d == 0.0;
    assert n.m10 * m.m00 + n.m11 * m.m10 == (m.m00 * m.m10 - m.m10 * m.m00) / d == 0.0;
    assert n.m10 * m.m01 + n.m11 * m.m11 == (m.m00 * m.m11 - m.m01 * m.m10) / d == 1.0;
  }

  /** Any right inverse of m is the closed-form inverse: it exists only for a
      non-zero determinant, and it is unique. */
  lemma InverseIsUnique(m: Matrix2, n: Matrix2)
    requires Mul(m, n) == Identity()
    ensures Det(m) != 0.0
    ensures n == Inverse(m)
  {
    DetOfProduct(m, n);
    assert Det(m) * Det(n) == 1.0;
    InverseIsTwoSided(m);
    calc {
      n;
      Mul(Identity(), n);
      Mul(Mul(Inverse(m), m), n);
      { MulAssociative(Inverse(m), m, n); }
      Mul(Inverse(m), Mul(m, n));
      Mul(Inverse(m), Identity());
      Inverse(m);
    }
  }

  /** A singular matrix has no inverse on either side. */
  lemma SingularHasNoInverse(m: Matrix2)
    requires Det(m) == 0.0
    ensures forall n :: Mul(m, n) != Identity()
    ensures forall n :: Mul(n, m) != Identity()
  {
    forall n ensures Mul(m, n) != Identity() && Mul(n, m) != Identity() {
      DetOfProduct(m, n);
      DetOfProduct(n, m);
    }
  }

  /** The inverse takes logical rates back to the motor rates that produced
      them, and the forward matrix takes the inverse's motor rates back to
      the logical rates asked for. */
  lemma InverseRoundTrip(m: Matrix2, motors: Vector2, axes: Vector2)
    requires Det(m) != 0.0
    ensures Apply(Inverse(m), Apply(m, motors)) == motors
    ensures Apply(m, Apply(Inverse(m), axes)) == axes
  {
    InverseIsTwoSided(m);
    ApplyProduct(Inverse(m), m, motors);
    ApplyProduct(m, Inverse(m), axes);
  }
}
