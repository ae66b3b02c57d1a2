/**
 * The part of Python's `math` module that the pendulum demos call: `pi`, `sin`,
 * `cos`, `sqrt` and `atan2`. They are left uninterpreted: a `MathLib` value is any
 * choice of them, and each lemma assumes only the facts it names below.
 *
 * Every fact is a pointwise predicate (`SinOddAt(m, x)`) and its universal form
 * (`SinIsOdd(m)`). The universal form is triggered on the pointwise predicate, so
 * a proof instantiates it exactly where needed with `assert SinOddAt(m, t);`.
 */
module RealMath {

  datatype MathLib = MathLib(
    pi: real,
    sin: real -> real,
    cos: real -> real,
    sqrt: real -> real,
    atan2: (real, real) -> real)

  ghost predicate SinOddAt(m: MathLib, x: real) {
    m.sin(-x) == -m.sin(x)
  }

  /** sin(-x) = -sin(x) */
  ghost predicate SinIsOdd(m: MathLib) {
    forall x :: SinOddAt(m, x)
  }

  ghost predicate CosEvenAt(m: MathLib, x: real) {
    m.cos(-x) == m.cos(x)
  }

  /** cos(-x) = cos(x) */
  ghost predicate CosIsEven(m: MathLib) {
    forall x :: CosEvenAt(m, x)
  }

  /** sin(0) = 0 */
  ghost predicate SinOfZero(m: MathLib) {
    m.sin(0.0) == 0.0
  }

  ghost predicate SinBoundedAt(m: MathLib, x: real) {
    -1.0 <= m.sin(x) <= 1.0
  }

  /** -1 <= sin(x) <= 1 */
  ghost predicate SinIsBounded(m: MathLib) {
    forall x :: SinBoundedAt(m, x)
  }

  ghost predicate PythagoreanAt(m: MathLib, x: real) {
    m.sin(x) * m.sin(x) + m.cos(x) * m.cos(x) == 1.0
  }

  /** sin(x)^2 + cos(x)^2 = 1 */
  ghost predicate Pythagorean(m: MathLib) {
    forall x :: PythagoreanAt(m, x)
  }

  ghost predicate SqrtAt(m: MathLib, x: real) {
    0.0 <= x ==> 0.0 <= m.sqrt(x) && m.sqrt(x) * m.sqrt(x) == x
  }

  /** On non-negative arguments sqrt is non-negative and squares back. */
  ghost predicate SqrtIsRoot(m: MathLib) {
    forall x :: SqrtAt(m, x)
  }

  function Abs(x: real): real {
    if x < 0.0 then -x else x
  }

  /** Squaring is strictly increasing on the non-negative reals. */
  lemma SquareBelow(r: real, s: real)
    requires 0.0 <= r < s
    ensures r * r < s * s
  {
    var d := s - r;
    assert s * s == r * r + 2.0 * r * d + d * d;
    assert d * d > 0.0;
    assert r * d >= 0.0;
  }

  /** Squaring is increasing on the non-negative reals. */
  lemma SquareAtMost(r: real, s: real)
    requires 0.0 <= r <= s
    ensures r * r <= s * s
  {
    if r < s {
      SquareBelow(r, s);
    }
  }

  /** Comparing a square root with a non-negative bound is comparing the radicand with its square. */
  lemma SqrtAtMost(m: MathLib, x: real, r: real)
    requires SqrtIsRoot(m)
    requires 0.0 <= x && 0.0 <= r
    ensures m.sqrt(x) <= r <==> x <= r * r
  {
    assert SqrtAt(m, x);
    var s := m.sqrt(x);
    if s <= r {
      SquareAtMost(s, r);
    } else {
      SquareBelow(r, s);
    }
  }

  /** The strict form of SqrtAtMost. */
  lemma SqrtBelow(m: MathLib, x: real, r: real)
    requires SqrtIsRoot(m)
    requires 0.0 <= x && 0.0 <= r
    ensures m.sqrt(x) < r <==> x < r * r
  {
    assert SqrtAt(m, x);
    var s := m.sqrt(x);
    if s < r {
      SquareBelow(s, r);
    } else {
      SquareAtMost(r, s);
    }
  }

  /** sqrt(x^2) = |x| */
  lemma SqrtOfSquare(m: MathLib, x: real)
    requires SqrtIsRoot(m)
    ensures m.sqrt(x * x) == Abs(x)
  {
    var a := Abs(x);
    assert a * a == x * x;
    SquareAtMost(0.0, a);
    assert SqrtAt(m, x * x);
    var s := m.sqrt(x * x);
    if s < a {
      SquareBelow(s, a);
    } else if a < s {
      SquareBelow(a, s);
    }
  }

  /** sqrt vanishes exactly at zero. */
  lemma SqrtZero(m: MathLib, x: real)
    requires SqrtIsRoot(m)
    requires 0.0 <= x
    ensures m.sqrt(x) == 0.0 <==> x == 0.0
  {
    assert SqrtAt(m, x);
    if m.sqrt(x) != 0.0 {
      SquareBelow(0.0, m.sqrt(x));
    }
  }
}
