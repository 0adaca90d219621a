/** Handles and cubic curves of the cursor's paths, over the reals (packages/browser/src/cursor-motion.js). */
module CursorGeometry {
  datatype Point = Point(x: real, y: real)

  datatype Bounds = Bounds(width: real, height: real)

  function Min(a: real, b: real): real { if b < a then b else a }

  function Max(a: real, b: real): real { if b > a then b else a }

  function Clamp(value: real, minimum: real, maximum: real): real { Max(minimum, Min(maximum, value)) }

  /** A product, named so that proofs can treat it as one quantity. */
  function Times(a: real, b: real): real { a * b }

  function Lerp(a: real, b: real, t: real): real { a + (b - a) * t }

  predicate Inside(p: Point, bounds: Bounds, margin: real) {
    margin <= p.x <= bounds.width - margin && margin <= p.y <= bounds.height - margin
  }

  function Along(p: Point, direction: Point, length: real): Point {
    Point(p.x + Times(direction.x, length), p.y + Times(direction.y, length))
  }

  // ----- handles ---------------------------------------------------------------------------

  /** The length that keeps one coordinate between 0 and `size`. */
  function Shortened(length: real, at: real, direction: real, size: real): real {
    if direction < 0.0 then Min(length, at / -direction)
    else if direction > 0.0 then Min(length, (size - at) / direction)
    else length
  }

  function SafeLength(bounds: Bounds, p: Point, direction: Point, requested: real): real {
    Max(0.0, Shortened(Shortened(requested, p.x, direction.x, bounds.width), p.y, direction.y, bounds.height))
  }

  function BoundedHandle(bounds: Bounds, p: Point, direction: Point, requested: real): Point {
    Along(p, direction, SafeLength(bounds, p, direction, requested))
  }

  lemma Quotient(t: real, n: real, d: real)
    requires d > 0.0
    ensures t <= n / d <==> t * d <= n
  {
    assert n / d * d == n;
    if t <= n / d {
      assert t * d <= n / d * d;
    } else {
      assert t * d > n / d * d;
    }
  }

  /** Along one axis: no longer than asked, and no further than the border ahead. */
  lemma ShortenedFits(length: real, at: real, direction: real, size: real, t: real)
    requires 0.0 <= at <= size && 0.0 <= t
    ensures t <= Shortened(length, at, direction, size) <==> t <= length && 0.0 <= at + Times(direction, t) <= size
  {
    if direction < 0.0 {
      Quotient(t, at, -direction);
      assert t * -direction == -(direction * t);
      assert direction * t <= 0.0;
    } else if direction > 0.0 {
      Quotient(t, size - at, direction);
      assert t * direction == direction * t >= 0.0;
    }
  }

  lemma ShortenedRange(length: real, at: real, direction: real, size: real)
    requires 0.0 <= at <= size
    ensures Shortened(length, at, direction, size) <= length
    ensures 0.0 <= length ==> 0.0 <= Shortened(length, at, direction, size)
  {
    if direction < 0.0 {
      Quotient(0.0, at, -direction);
    } else if direction > 0.0 {
      Quotient(0.0, size - at, direction);
    }
  }

  /** The handle is the longest one asked for that stays in the viewport, whatever the direction. */
  lemma HandleIsLongest(bounds: Bounds, p: Point, direction: Point, requested: real, t: real)
    requires Inside(p, bounds, 0.0) && 0.0 <= t
    ensures 0.0 <= requested ==> (t <= SafeLength(bounds, p, direction, requested) <==>
      t <= requested && Inside(Along(p, direction, t), bounds, 0.0))
    ensures requested < 0.0 ==> SafeLength(bounds, p, direction, requested) == 0.0
  {
    hide Shortened, Times;
    var once := Shortened(requested, p.x, direction.x, bounds.width);
    ShortenedFits(requested, p.x, direction.x, bounds.width, t);
    ShortenedFits(once, p.y, direction.y, bounds.height, t);
    ShortenedRange(requested, p.x, direction.x, bounds.width);
    ShortenedRange(once, p.y, direction.y, bounds.height);
  }

  /** A handle of a point in the viewport is in the viewport. */
  lemma HandleInside(bounds: Bounds, p: Point, direction: Point, requested: real)
    requires Inside(p, bounds, 0.0)
    ensures Inside(BoundedHandle(bounds, p, direction, requested), bounds, 0.0)
  {
    HandleIsLongest(bounds, p, direction, requested, SafeLength(bounds, p, direction, requested));
  }

  // ----- cubic curves ----------------------------------------------------------------------

  function Cubic(a: real, b: real, c: real, d: real, t: real): real {
    var i := 1.0 - t;
    a * (i * i * i) + b * (3.0 * (i * i) * t) + c * (3.0 * i * (t * t)) + d * (t * t * t)
  }

  function CubicPoint(start: Point, control1: Point, control2: Point, end: Point, t: real): Point {
    Point(Cubic(start.x, control1.x, control2.x, end.x, t), Cubic(start.y, control1.y, control2.y, end.y, t))
  }

  function Slope(a: real, b: real, c: real, d: real, t: real): real {
    var i := 1.0 - t;
    3.0 * (i * i) * (b - a) + 6.0 * i * t * (c - b) + 3.0 * (t * t) * (d - c)
  }

  function CubicTangent(start: Point, control1: Point, control2: Point, end: Point, t: real): Point {
    Point(Slope(start.x, control1.x, control2.x, end.x, t), Slope(start.y, control1.y, control2.y, end.y, t))
  }

  /** De Casteljau's construction: three rounds of straight interpolation. */
  function Nested2(a: real, b: real, c: real, t: real): real { Lerp(Lerp(a, b, t), Lerp(b, c, t), t) }

  function Nested3(a: real, b: real, c: real, d: real, t: real): real {
    Lerp(Nested2(a, b, c, t), Nested2(b, c, d, t), t)
  }

  lemma Nested2Weights(a: real, b: real, c: real, t: real)
    ensures Nested2(a, b, c, t) == a * ((1.0 - t) * (1.0 - t)) + b * (2.0 * (1.0 - t) * t) + c * (t * t)
  {
  }

  lemma LerpWeights(a: real, b: real, t: real)
    ensures Lerp(a, b, t) == a * (1.0 - t) + b * t
  {
  }

  lemma LerpAsTimes(a: real, b: real, t: real)
    ensures Lerp(a, b, t) == Times(a, 1.0 - t) + Times(b, t)
  {
  }

  /** The weighted sum is that construction. */
  lemma CubicIsNested(a: real, b: real, c: real, d: real, t: real)
    ensures Cubic(a, b, c, d, t) == Nested3(a, b, c, d, t)
  {
    var i := 1.0 - t;
    var p, q := Nested2(a, b, c, t), Nested2(b, c, d, t);
    Nested2Weights(a, b, c, t);
    Nested2Weights(b, c, d, t);
    LerpWeights(p, q, t);
    WeightsJoin(a, b, c, d, i, t);
    hide Nested2, Lerp;
    Joined(p, q, a * (i * i) + b * (2.0 * i * t) + c * (t * t), b * (i * i) + c * (2.0 * i * t) + d * (t * t), i, t);
  }

  lemma Joined(p: real, q: real, p': real, q': real, i: real, t: real)
    requires p == p' && q == q'
    ensures p * i + q * t == p' * i + q' * t
  {
  }

  lemma WeightsJoin(a: real, b: real, c: real, d: real, i: real, t: real)
    ensures (a * (i * i) + b * (2.0 * i * t) + c * (t * t)) * i + (b * (i * i) + c * (2.0 * i * t) + d * (t * t)) * t ==
      a * (i * i * i) + b * (3.0 * (i * i) * t) + c * (3.0 * i * (t * t)) + d * (t * t * t)
  {
  }

  lemma Scaled(a: real, b: real, t: real)
    requires a <= b && 0.0 <= t
    ensures Times(a, t) <= Times(b, t)
    ensures Times(-b, t) == -Times(b, t)
  {
  }

  lemma LerpSame(a: real, t: real)
    ensures Times(a, 1.0 - t) + Times(a, t) == a
  {
  }

  lemma LerpBetween(a: real, b: real, t: real, low: real, high: real)
    requires low <= a <= high && low <= b <= high && 0.0 <= t <= 1.0
    ensures low <= Lerp(a, b, t) <= high
  {
    LerpAsTimes(a, b, t);
    hide Lerp, Times;
    Scaled(low, a, 1.0 - t);
    Scaled(low, b, t);
    Scaled(a, high, 1.0 - t);
    Scaled(b, high, t);
    LerpSame(low, t);
    LerpSame(high, t);
  }

  /** A curve stays between the least and the greatest of its points. */
  lemma CubicBetween(a: real, b: real, c: real, d: real, t: real, low: real, high: real)
    requires low <= a <= high && low <= b <= high && low <= c <= high && low <= d <= high && 0.0 <= t <= 1.0
    ensures low <= Cubic(a, b, c, d, t) <= high
  {
    hide Lerp, Cubic;
    CubicIsNested(a, b, c, d, t);
    LerpBetween(a, b, t, low, high);
    LerpBetween(b, c, t, low, high);
    LerpBetween(c, d, t, low, high);
    LerpBetween(Lerp(a, b, t), Lerp(b, c, t), t, low, high);
    LerpBetween(Lerp(b, c, t), Lerp(c, d, t), t, low, high);
    LerpBetween(Nested2(a, b, c, t), Nested2(b, c, d, t), t, low, high);
  }

  /** At most `k` apart. */
  predicate Near(a: real, b: real, k: real) { a - b <= k && b - a <= k }

  lemma LerpChange(a: real, b: real, s: real, a': real, b': real, t: real)
    ensures Lerp(a', b', t) - Lerp(a, b, s) == Lerp(a' - a, b' - b, t) + Times(b - a, t - s)
  {
  }

  /** Interpolating between moving points: they move by at most `k`, and lie at most `w` apart. */
  lemma LerpMoves(a: real, b: real, s: real, a': real, b': real, t: real, k: real, w: real)
    requires Near(a', a, k) && Near(b', b, k) && Near(b, a, w) && 0.0 <= s <= t <= 1.0
    ensures Near(Lerp(a', b', t), Lerp(a, b, s), k + Times(w, t - s))
  {
    hide Lerp, Times;
    LerpChange(a, b, s, a', b', t);
    LerpBetween(a' - a, b' - b, t, -k, k);
    Scaled(a - b, w, t - s);
    Scaled(-w, b - a, t - s);
    Scaled(b - a, w, t - s);
  }

  lemma Nested2Moves(a: real, b: real, c: real, s: real, t: real, low: real, high: real)
    requires low <= a <= high && low <= b <= high && low <= c <= high && 0.0 <= s <= t <= 1.0
    ensures Near(Nested2(a, b, c, t), Nested2(a, b, c, s), 2.0 * Times(high - low, t - s))
    ensures low <= Nested2(a, b, c, s) <= high
  {
    hide Lerp, Times;
    var w := high - low;
    LerpBetween(a, b, s, low, high);
    LerpBetween(b, c, s, low, high);
    LerpBetween(Lerp(a, b, s), Lerp(b, c, s), s, low, high);
    LerpMoves(a, b, s, a, b, t, 0.0, w);
    LerpMoves(b, c, s, b, c, t, 0.0, w);
    LerpMoves(Lerp(a, b, s), Lerp(b, c, s), s, Lerp(a, b, t), Lerp(b, c, t), t, Times(w, t - s), w);
  }

  /** A curve moves at most three times the spread of its points, times the progress made. */
  lemma CubicMoves(a: real, b: real, c: real, d: real, s: real, t: real, low: real, high: real)
    requires low <= a <= high && low <= b <= high && low <= c <= high && low <= d <= high
    requires 0.0 <= s <= t <= 1.0
    ensures Near(Cubic(a, b, c, d, t), Cubic(a, b, c, d, s), 3.0 * Times(high - low, t - s))
  {
    hide Nested2, Cubic, Lerp, Times;
    var w := high - low;
    CubicIsNested(a, b, c, d, s);
    CubicIsNested(a, b, c, d, t);
    Nested2Moves(a, b, c, s, t, low, high);
    Nested2Moves(b, c, d, s, t, low, high);
    LerpMoves(Nested2(a, b, c, s), Nested2(b, c, d, s), s, Nested2(a, b, c, t), Nested2(b, c, d, t), t,
      2.0 * Times(w, t - s), w);
  }

  /** The tangent is the rate of change: what it leaves out is of the second order. */
  lemma SlopeIsRate(a: real, b: real, c: real, d: real, t: real, h: real)
    ensures Cubic(a, b, c, d, t + h) - Cubic(a, b, c, d, t) - h * Slope(a, b, c, d, t) ==
      h * h * ((3.0 * (1.0 - t) - h) * (c - 2.0 * b + a) + (3.0 * t + h) * (d - 2.0 * c + b))
  {
    var p, q, r := b - a, c - 2.0 * b + a, d - 3.0 * c + 3.0 * b - a;
    hide Cubic, Slope;
    Powers(a, b, c, d, t);
    Powers(a, b, c, d, t + h);
    SlopePowers(a, b, c, d, t);
    PowersChange(a, p, q, r, t, h);
    assert d - 2.0 * c + b == q + r;
  }

  lemma PowersChange(a: real, p: real, q: real, r: real, t: real, h: real)
    ensures
      (a + 3.0 * (p * (t + h)) + 3.0 * (q * ((t + h) * (t + h))) + r * ((t + h) * (t + h) * (t + h)))
      - (a + 3.0 * (p * t) + 3.0 * (q * (t * t)) + r * (t * t * t))
      - h * (3.0 * p + 6.0 * (q * t) + 3.0 * (r * (t * t)))
      == h * h * ((3.0 * (1.0 - t) - h) * q + (3.0 * t + h) * (q + r))
  {
  }

  lemma Powers(a: real, b: real, c: real, d: real, t: real)
    ensures Cubic(a, b, c, d, t) ==
      a + 3.0 * ((b - a) * t) + 3.0 * ((c - 2.0 * b + a) * (t * t)) + (d - 3.0 * c + 3.0 * b - a) * (t * t * t)
  {
    var i := 1.0 - t;
    assert i * i == 1.0 - 2.0 * t + t * t;
    assert i * i * i == 1.0 - 3.0 * t + 3.0 * (t * t) - t * t * t;
    assert 3.0 * (i * i) * t == 3.0 * t - 6.0 * (t * t) + 3.0 * (t * t * t);
    assert 3.0 * i * (t * t) == 3.0 * (t * t) - 3.0 * (t * t * t);
  }

  lemma SlopePowers(a: real, b: real, c: real, d: real, t: real)
    ensures Slope(a, b, c, d, t) ==
      3.0 * (b - a) + 6.0 * ((c - 2.0 * b + a) * t) + 3.0 * ((d - 3.0 * c + 3.0 * b - a) * (t * t))
  {
    var i := 1.0 - t;
    assert i * i == 1.0 - 2.0 * t + t * t;
    assert 6.0 * i * t == 6.0 * t - 6.0 * (t * t);
  }
}
