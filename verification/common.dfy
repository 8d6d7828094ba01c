/** Values the effect takes from its host: random draws, results of the
    trigonometric and square-root functions, the canvas element, and the
    small numeric helpers (`Math.min`, `Math.max`, `Math.floor`) the
    controller uses. */
module Common {

  /** One result of `Math.random()`: a real in [0, 1). */
  type Unit01 = r: real | 0.0 <= r < 1.0

  /** One result of `Math.sin` or `Math.cos`: a real in [-1, 1]. */
  type Signed = r: real | -1.0 <= r <= 1.0

  /** A non-negative real (viewport dimensions). */
  type NonNeg = r: real | 0.0 <= r

  /** `Math.PI`, as the double nearest to pi. */
  const Pi: real := 3.141592653589793

  datatype Option<+T> = None | Some(value: T)

  /** `root` agrees with `Math.sqrt` on every non-negative argument. */
  ghost predicate IsSqrt(root: real -> real) {
    forall v: real :: 0.0 <= v ==> 0.0 <= root(v) && root(v) * root(v) == v
  }

  /** `Math.min(a, b)`. */
  function Min(a: real, b: real): (m: real)
    ensures m <= a && m <= b
    ensures m == a || m == b
  {
    if a <= b then a else b
  }

  /** `Math.max(0, Math.min(1, v))`: the level clamp of `setIntensity`. */
  function Clamp01(v: real): (c: real)
    ensures 0.0 <= c <= 1.0
    ensures 0.0 <= v <= 1.0 ==> c == v
    ensures v < 0.0 ==> c == 0.0
    ensures 1.0 < v ==> c == 1.0
  {
    var low := if 1.0 <= v then 1.0 else v;
    if 0.0 <= low then low else 0.0
  }

  /** `Math.abs(v)`. */
  function Abs(v: real): (a: real)
    ensures 0.0 <= a && (a == v || a == -v)
  {
    if v < 0.0 then -v else v
  }

  /** A factor in [0, 1] scales a non-negative real down. */
  lemma Shrink(k: real, a: real)
    requires 0.0 <= k <= 1.0
    ensures 0.0 <= a ==> 0.0 <= k * a <= a
  {
    if 0.0 <= a {
      assert (1.0 - k) * a >= 0.0;
    }
  }

  /** A sine or cosine value scales a non-negative real to at most its size. */
  lemma SignedScale(k: Signed, a: real)
    requires 0.0 <= a
    ensures Abs(k * a) <= a
  {
    if 0.0 <= k {
      Shrink(k, a);
    } else {
      var m := -k;
      Shrink(m, a);
      assert k * a == -(m * a);
      assert -a <= k * a <= 0.0;
    }
  }

  /** The squared length `dx * dx + dy * dy` of a displacement. */
  function SquaredLength(dx: real, dy: real): (d2: real)
    ensures 0.0 <= d2
  {
    dx * dx + dy * dy
  }

  /** A product of non-negative reals is non-negative. */
  lemma ProductSign(x: real, y: real)
    requires 0.0 <= x && 0.0 <= y
    ensures 0.0 <= x * y
    ensures 0.0 < x && 0.0 < y ==> 0.0 < x * y
  {
  }

  /** Squaring is strictly increasing on the non-negative reals. */
  lemma SquareLess(r: real, b: real)
    requires 0.0 <= r < b
    ensures r * r < b * b
  {
    assert r * b - r * r >= 0.0;
    assert b * b - r * b > 0.0;
  }

  /** Comparing a square root against a positive bound is comparing the
      radicand against the bound's square, so no root is needed. */
  lemma RootBelow(root: real -> real, v: real, b: real)
    requires IsSqrt(root) && 0.0 <= v && 0.0 < b
    ensures root(v) < b <==> v < b * b
  {
    var r := root(v);
    assert 0.0 <= r && r * r == v;
    if r < b {
      SquareLess(r, b);
    } else if b < r {
      SquareLess(b, r);
    }
  }

  /** A draw scales a non-negative real down, strictly when it is positive. */
  lemma ScaleDown(r: Unit01, a: real)
    ensures 0.0 <= a ==> 0.0 <= r * a <= a
    ensures 0.0 < a ==> r * a < a
  {
    if 0.0 < a {
      assert (1.0 - r) * a > 0.0;
    }
  }

  /** `r * a` for a draw `r`: a point of [0, a]. */
  function Scale(r: Unit01, a: real): (s: real)
    ensures 0.0 <= a ==> 0.0 <= s <= a
    ensures 0.0 < a ==> s < a
  {
    ScaleDown(r, a);
    r * a
  }

  /** `(r - 0.5) * a` for a draw `r`: a point of [-a/2, a/2]. */
  function Centered(r: Unit01, a: real): (s: real)
    ensures 0.0 <= a ==> -a / 2.0 <= s <= a / 2.0
  {
    Scale(r, a) - a / 2.0
  }

  /** `r * Math.PI * 2` for a draw `r`: an angle of one turn at most. */
  function Turn(r: Unit01): (t: real)
    ensures 0.0 <= t < 2.0 * Pi
  {
    Scale(r, 2.0 * Pi)
  }

  /** `Math.floor(r * n)` is a valid index into a collection of `n` elements. */
  lemma FloorIndex(r: Unit01, n: nat)
    requires 0 < n
    ensures 0 <= (r * n as real).Floor < n
  {
    ScaleDown(r, n as real);
  }

  /** `xs[Math.floor(Math.random() * xs.length)]`: a uniformly drawn element. */
  function Pick<T>(xs: seq<T>, r: Unit01): (x: T)
    requires 0 < |xs|
    ensures x in xs
  {
    FloorIndex(r, |xs|);
    xs[(r * |xs| as real).Floor]
  }

  /** The `display` style of the canvas: unset (`''`), `'block'` or `'none'`. */
  datatype Display = Unset | Block | Hidden

  /** The parts of the canvas element the controller writes: its CSS
      opacity and its display style. */
  datatype Canvas = Canvas(opacity: real, display: Display)

  /** The canvas as created: CSS opacity 0.7, display left unset. */
  const InitialCanvas: Canvas := Canvas(0.7, Unset)

  /** A canvas counts as shown unless its display is `'none'`. */
  predicate Shown(c: Canvas) {
    c.display != Hidden
  }
}
