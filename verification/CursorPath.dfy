/** The cursor's paths and the choice among them (packages/browser/src/cursor-motion.js). */
module CursorPath {
  import opened CursorGeometry

  datatype Segment = Segment(control1: Point, control2: Point, end: Point)

  datatype Path = Path(start: Point, end: Point, hasArc: bool, segments: seq<Segment>)

  /** A path that has a segment, and whose last one ends where the path does. */
  predicate Whole(path: Path) { path.segments != [] && path.segments[|path.segments| - 1].end == path.end }

  function SegmentStart(path: Path, k: nat): Point
    requires k < |path.segments|
  {
    if k == 0 then path.start else path.segments[k - 1].end
  }

  function OnSegment(path: Path, k: nat, t: real): Point
    requires k < |path.segments|
  {
    var s := path.segments[k];
    CubicPoint(SegmentStart(path, k), s.control1, s.control2, s.end, t)
  }

  function TangentOn(path: Path, k: nat, t: real): Point
    requires k < |path.segments|
  {
    var s := path.segments[k];
    CubicTangent(SegmentStart(path, k), s.control1, s.control2, s.end, t)
  }

  datatype Place = Place(point: Point, tangent: Point)

  function PathPoint(path: Path, progress: real): Place
    requires path.segments != []
  {
    var n := |path.segments|;
    var bounded := Clamp(progress, 0.0, 1.0);
    var scaled := if bounded == 1.0 then (n - 1) as real else bounded * n as real;
    ScaledInRange(n, bounded);
    var index := scaled.Floor;
    var local := if bounded == 1.0 then 1.0 else scaled - index as real;
    Place(OnSegment(path, index, local), TangentOn(path, index, local))
  }

  lemma ScaledInRange(n: nat, bounded: real)
    requires n > 0 && 0.0 <= bounded <= 1.0
    ensures 0.0 <= bounded * n as real <= n as real
    ensures bounded < 1.0 ==> bounded * n as real < n as real
  {
  }

  // ----- along a path ----------------------------------------------------------------------

  /** The point of a path of `n` segments at `u` between 0 and `n`. */
  function At(path: Path, u: real): Point
    requires path.segments != [] && 0.0 <= u <= |path.segments| as real
  {
    var n := |path.segments|;
    if u == n as real then OnSegment(path, n - 1, 1.0) else OnSegment(path, u.Floor, u - u.Floor as real)
  }

  function Scale(path: Path, progress: real): (u: real)
    requires path.segments != []
    ensures 0.0 <= u <= |path.segments| as real
  {
    ScaledInRange(|path.segments|, Clamp(progress, 0.0, 1.0));
    Clamp(progress, 0.0, 1.0) * |path.segments| as real
  }

  lemma PathPointIsAt(path: Path, progress: real)
    requires path.segments != []
    ensures PathPoint(path, progress).point == At(path, Scale(path, progress))
  {
    hide OnSegment, TangentOn;
    ScaledInRange(|path.segments|, Clamp(progress, 0.0, 1.0));
  }

  lemma CubicEnds(start: Point, control1: Point, control2: Point, end: Point)
    ensures CubicPoint(start, control1, control2, end, 0.0) == start
    ensures CubicPoint(start, control1, control2, end, 1.0) == end
  {
  }

  /** On the k-th segment, both of its ends included: segments meet where they join. */
  lemma AtIs(path: Path, k: nat, u: real)
    requires k < |path.segments| && k as real <= u <= (k + 1) as real
    ensures At(path, u) == OnSegment(path, k, u - k as real)
  {
    var s := path.segments[k];
    hide CubicPoint;
    if u == (k + 1) as real && k + 1 < |path.segments| {
      var s' := path.segments[k + 1];
      CubicEnds(SegmentStart(path, k), s.control1, s.control2, s.end);
      CubicEnds(s.end, s'.control1, s'.control2, s'.end);
      assert u.Floor == k + 1;
    } else if u < (k + 1) as real {
      assert u.Floor == k;
    }
  }

  /** A path starts at its start and ends at its end, for any progress before and after. */
  lemma PathEnds(path: Path, progress: real)
    requires Whole(path)
    ensures progress <= 0.0 ==> PathPoint(path, progress).point == path.start
    ensures progress >= 1.0 ==> PathPoint(path, progress).point == path.end
  {
    hide CubicPoint, CubicTangent;
    var s, last := path.segments[0], path.segments[|path.segments| - 1];
    CubicEnds(path.start, s.control1, s.control2, s.end);
    CubicEnds(SegmentStart(path, |path.segments| - 1), last.control1, last.control2, last.end);
  }

  /** Every point that a path is drawn from lies in the box. */
  predicate Spread(path: Path, low: Point, high: Point) {
    && InBox(path.start, low, high)
    && forall k :: 0 <= k < |path.segments| ==>
      InBox(path.segments[k].control1, low, high) && InBox(path.segments[k].control2, low, high)
        && InBox(path.segments[k].end, low, high)
  }

  predicate InBox(p: Point, low: Point, high: Point) { low.x <= p.x <= high.x && low.y <= p.y <= high.y }

  lemma OnSegmentInBox(path: Path, k: nat, t: real, low: Point, high: Point)
    requires Spread(path, low, high) && k < |path.segments| && 0.0 <= t <= 1.0
    ensures InBox(OnSegment(path, k, t), low, high)
  {
    hide Cubic;
    var a, s := SegmentStart(path, k), path.segments[k];
    CubicBetween(a.x, s.control1.x, s.control2.x, s.end.x, t, low.x, high.x);
    CubicBetween(a.y, s.control1.y, s.control2.y, s.end.y, t, low.y, high.y);
  }

  /** A path never leaves a box that holds its points. */
  lemma PathInBox(path: Path, progress: real, low: Point, high: Point)
    requires path.segments != [] && Spread(path, low, high)
    ensures InBox(PathPoint(path, progress).point, low, high)
  {
    var u := Scale(path, progress);
    PathPointIsAt(path, progress);
    hide OnSegment, PathPoint, Spread, InBox;
    if u == |path.segments| as real {
      OnSegmentInBox(path, |path.segments| - 1, 1.0, low, high);
    } else {
      OnSegmentInBox(path, u.Floor, u - u.Floor as real, low, high);
    }
  }

  predicate NearPoint(p: Point, q: Point, low: Point, high: Point, d: real) {
    Near(p.x, q.x, 3.0 * Times(high.x - low.x, d)) && Near(p.y, q.y, 3.0 * Times(high.y - low.y, d))
  }

  lemma OnSegmentMoves(path: Path, k: nat, s: real, t: real, low: Point, high: Point)
    requires Spread(path, low, high) && k < |path.segments| && 0.0 <= s <= t <= 1.0
    ensures NearPoint(OnSegment(path, k, t), OnSegment(path, k, s), low, high, t - s)
  {
    hide Cubic, Times;
    var a, g := SegmentStart(path, k), path.segments[k];
    CubicMoves(a.x, g.control1.x, g.control2.x, g.end.x, s, t, low.x, high.x);
    CubicMoves(a.y, g.control1.y, g.control2.y, g.end.y, s, t, low.y, high.y);
  }

  lemma TimesSum(w: real, a: real, b: real)
    ensures Times(w, a) + Times(w, b) == Times(w, a + b)
  {
  }

  lemma NearSum(p: Point, q: Point, r: Point, low: Point, high: Point, d: real, e: real)
    requires NearPoint(p, q, low, high, d) && NearPoint(q, r, low, high, e)
    ensures NearPoint(p, r, low, high, d + e)
  {
    hide Times;
    TimesSum(high.x - low.x, d, e);
    TimesSum(high.y - low.y, d, e);
  }

  lemma AtMovesWithin(path: Path, k: nat, u: real, v: real, low: Point, high: Point)
    requires path.segments != [] && Spread(path, low, high) && k < |path.segments|
      && k as real <= u <= v <= (k + 1) as real
    ensures NearPoint(At(path, v), At(path, u), low, high, v - u)
  {
    hide At, OnSegment, Spread, NearPoint;
    AtIs(path, k, u);
    AtIs(path, k, v);
    OnSegmentMoves(path, k, u - k as real, v - k as real, low, high);
    assert (v - k as real) - (u - k as real) == v - u;
  }

  lemma {:induction false} AtMoves(path: Path, u: real, v: real, low: Point, high: Point)
    requires path.segments != [] && Spread(path, low, high) && 0.0 <= u <= v <= |path.segments| as real
    ensures NearPoint(At(path, v), At(path, u), low, high, v - u)
    decreases |path.segments| - u.Floor
  {
    hide At, OnSegment, Spread, NearPoint;
    var k := u.Floor;
    if k == |path.segments| {
      AtMovesWithin(path, k - 1, u, v, low, high);
    } else if v <= (k + 1) as real {
      AtMovesWithin(path, k, u, v, low, high);
    } else {
      var join := (k + 1) as real;
      AtMovesWithin(path, k, u, join, low, high);
      AtMoves(path, join, v, low, high);
      NearSum(At(path, v), At(path, join), At(path, u), low, high, v - join, join - u);
      assert (v - join) + (join - u) == v - u;
    }
  }

  /** Nowhere does a path jump, at its joins or elsewhere: it moves in proportion to the progress made. */
  lemma PathMoves(path: Path, p: real, q: real, low: Point, high: Point)
    requires path.segments != [] && Spread(path, low, high) && p <= q
    ensures NearPoint(PathPoint(path, q).point, PathPoint(path, p).point, low, high, Scale(path, q) - Scale(path, p))
  {
    PathPointIsAt(path, p);
    PathPointIsAt(path, q);
    ScaleGrows(path, p, q);
    hide PathPoint, At, Scale, Spread, NearPoint;
    AtMoves(path, Scale(path, p), Scale(path, q), low, high);
  }

  lemma ScaleGrows(path: Path, p: real, q: real)
    requires path.segments != [] && p <= q
    ensures Scale(path, p) <= Scale(path, q)
  {
    var a, b := Clamp(p, 0.0, 1.0), Clamp(q, 0.0, 1.0);
    assert Scale(path, p) == Times(a, |path.segments| as real) && Scale(path, q) == Times(b, |path.segments| as real);
    hide Times, Scale;
    Scaled(a, b, |path.segments| as real);
  }

  // ----- candidates ------------------------------------------------------------------------

  /** What a path is planned from; the directions and the distance come from square roots and angles. */
  datatype Plan = Plan(bounds: Bounds, start: Point, end: Point, click: Point, travel: Point, distance: real)

  function StartHandle(plan: Plan): real {
    Clamp(plan.distance * 0.41960295031576633, 48.0, Min(640.0, plan.distance * 0.9))
  }

  function EndHandle(plan: Plan): real {
    Clamp(plan.distance * 0.15, 48.0, Min(640.0, plan.distance * 0.9))
  }

  function Opposite(p: Point): Point { Point(-p.x, -p.y) }

  function StartControl(plan: Plan, scale: real): Point {
    BoundedHandle(plan.bounds, plan.start, plan.click, Times(StartHandle(plan), scale))
  }

  function EndControl(plan: Plan, scale: real): Point {
    BoundedHandle(plan.bounds, plan.end, Opposite(plan.click), Times(EndHandle(plan), scale))
  }

  function SinglePath(plan: Plan, scale: real): Path {
    Path(plan.start, plan.end, false, [Segment(StartControl(plan, scale), EndControl(plan, scale), plan.end)])
  }

  /** Square to the way, on the side the pointer leans to. */
  function Normal(plan: Plan): Point {
    var across := Point(-plan.travel.y, plan.travel.x);
    if across.x * plan.click.x + across.y * plan.click.y >= 0.0 then across else Opposite(across)
  }

  function ArcPath(plan: Plan, distance: real, handle: real, normal: Point): Path {
    var reach := StartHandle(plan);
    var arc := Point(
      (plan.start.x + plan.end.x) / 2.0 + normal.x * distance + plan.click.x * reach * 0.16,
      (plan.start.y + plan.end.y) / 2.0 + normal.y * distance + plan.click.y * reach * 0.16);
    var arcIn := Point(arc.x - plan.travel.x * handle, arc.y - plan.travel.y * handle);
    var arcOut := Point(arc.x + plan.travel.x * handle, arc.y + plan.travel.y * handle);
    Path(plan.start, plan.end, true,
         [Segment(StartControl(plan, 1.0), arcIn, arc), Segment(arcOut, EndControl(plan, 1.0), plan.end)])
  }

  const DISTANCE_SCALES: seq<real> := [0.55, 0.8, 1.05]
  const HANDLE_SCALES: seq<real> := [0.65, 1.0, 1.35]

  function ArcDistance(plan: Plan): real { Clamp(plan.distance * 0.2765523188064277, 50.0, 520.0) }

  function ArcHandle(plan: Plan): real { Clamp(plan.distance * 0.5783555327868779, 38.0, 440.0) }

  /** The arc of the i-th distance, the j-th handle and the k-th side. */
  function Arc(plan: Plan, i: nat, j: nat, k: nat): Path
    requires i < 3 && j < 3 && k < 2
  {
    ArcPath(plan, ArcDistance(plan) * DISTANCE_SCALES[i], ArcHandle(plan) * HANDLE_SCALES[j],
            if k == 0 then Normal(plan) else Opposite(Normal(plan)))
  }

  /** Two plain curves, and every arc: distances outermost, sides innermost. */
  function Candidates(plan: Plan): (r: seq<Path>)
    ensures |r| == 20
  {
    [SinglePath(plan, 1.0), SinglePath(plan, 0.65)]
      + seq(18, n requires 0 <= n < 18 => Arc(plan, n / 6, n % 6 / 2, n % 2))
  }

  method PathCandidates(plan: Plan) returns (candidates: seq<Path>)
    ensures candidates == Candidates(plan)
  {
    hide SinglePath, ArcPath, Arc, Candidates;
    candidates := [SinglePath(plan, 1.0), SinglePath(plan, 0.65)];
    FirstCandidates(plan);
    var i := 0;
    while i < 3
      invariant i <= 3 && |candidates| == 2 + 6 * i && candidates == Candidates(plan)[..2 + 6 * i]
    {
      var j := 0;
      while j < 3
        invariant j <= 3 && |candidates| == 2 + 6 * i + 2 * j && candidates == Candidates(plan)[..2 + 6 * i + 2 * j]
      {
        NextCandidate(plan, i, j, 0);
        candidates := candidates + [Arc(plan, i, j, 0)];
        NextCandidate(plan, i, j, 1);
        candidates := candidates + [Arc(plan, i, j, 1)];
        j := j + 1;
      }
      i := i + 1;
    }
    candidates := candidates[..20];
  }

  lemma FirstCandidates(plan: Plan)
    ensures Candidates(plan)[..2] == [SinglePath(plan, 1.0), SinglePath(plan, 0.65)]
  {
  }

  lemma NextCandidate(plan: Plan, i: nat, j: nat, k: nat)
    requires i < 3 && j < 3 && k < 2
    ensures Candidates(plan)[2 + 6 * i + 2 * j + k] == Arc(plan, i, j, k)
  {
    hide SinglePath, ArcPath, Arc;
    var n := 6 * i + 2 * j + k;
    assert n / 6 == i && n % 6 == 2 * j + k && n % 2 == k;
  }

  /** Every candidate leads from the start to the end. */
  lemma CandidatesLead(plan: Plan, n: nat)
    requires n < 20
    ensures var c := Candidates(plan)[n]; Whole(c) && c.start == plan.start && c.end == plan.end
  {
  }

  /** A single-segment path between points of the viewport stays in the viewport, at every progress. */
  lemma SingleStaysInside(plan: Plan, scale: real, progress: real)
    requires Inside(plan.start, plan.bounds, 0.0) && Inside(plan.end, plan.bounds, 0.0)
    ensures Inside(PathPoint(SinglePath(plan, scale), progress).point, plan.bounds, 0.0)
  {
    ControlsInside(plan, scale);
    hide PathPoint, StartControl, EndControl;
    PathInBox(SinglePath(plan, scale), progress, Point(0.0, 0.0), Point(plan.bounds.width, plan.bounds.height));
  }

  lemma ControlsInside(plan: Plan, scale: real)
    requires Inside(plan.start, plan.bounds, 0.0) && Inside(plan.end, plan.bounds, 0.0)
    ensures Inside(StartControl(plan, scale), plan.bounds, 0.0) && Inside(EndControl(plan, scale), plan.bounds, 0.0)
  {
    hide Inside, BoundedHandle, StartHandle, EndHandle, Opposite, Times;
    HandleInside(plan.bounds, plan.start, plan.click, Times(StartHandle(plan), scale));
    HandleInside(plan.bounds, plan.end, Opposite(plan.click), Times(EndHandle(plan), scale));
  }

  function Multiple(direction: Point, length: real): Point {
    Point(Times(direction.x, length), Times(direction.y, length))
  }

  /** The tangents at the two ends of a curve point along its handles. */
  lemma EndTangents(start: Point, control1: Point, control2: Point, end: Point)
    ensures CubicTangent(start, control1, control2, end, 0.0) ==
      Point(3.0 * (control1.x - start.x), 3.0 * (control1.y - start.y))
    ensures CubicTangent(start, control1, control2, end, 1.0) ==
      Point(3.0 * (end.x - control2.x), 3.0 * (end.y - control2.y))
  {
  }

  /** A handle of the start leads along the click direction, a handle of the end leads back along it. */
  lemma HandlesLean(plan: Plan, scale: real) returns (out: real, back: real)
    ensures 0.0 <= out && 0.0 <= back
    ensures StartControl(plan, scale) == Along(plan.start, plan.click, out)
    ensures EndControl(plan, scale) == Along(plan.end, Opposite(plan.click), back)
    ensures Inside(plan.start, plan.bounds, 0.0) && 0.0 <= Times(StartHandle(plan), scale) ==>
      out <= Times(StartHandle(plan), scale)
    ensures Inside(plan.end, plan.bounds, 0.0) && 0.0 <= Times(EndHandle(plan), scale) ==>
      back <= Times(EndHandle(plan), scale)
  {
    hide Times, Along, StartHandle, EndHandle, Shortened;
    out := SafeLength(plan.bounds, plan.start, plan.click, Times(StartHandle(plan), scale));
    back := SafeLength(plan.bounds, plan.end, Opposite(plan.click), Times(EndHandle(plan), scale));
    if Inside(plan.start, plan.bounds, 0.0) {
      HandleIsLongest(plan.bounds, plan.start, plan.click, Times(StartHandle(plan), scale), out);
    }
    if Inside(plan.end, plan.bounds, 0.0) {
      HandleIsLongest(plan.bounds, plan.end, Opposite(plan.click), Times(EndHandle(plan), scale), back);
    }
  }

  /** The curve leaves its start and reaches its end along the click direction, never against it. */
  ghost predicate LeansAlong(path: Path, direction: Point)
    requires path.segments != []
  {
    exists out, back :: 0.0 <= out && 0.0 <= back
      && PathPoint(path, 0.0).tangent == Multiple(direction, out)
      && PathPoint(path, 1.0).tangent == Multiple(direction, back)
  }

  lemma EndsTangent(path: Path)
    requires path.segments != []
    ensures PathPoint(path, 0.0).tangent == TangentOn(path, 0, 0.0)
    ensures PathPoint(path, 1.0).tangent == TangentOn(path, |path.segments| - 1, 1.0)
  {
    hide TangentOn, OnSegment;
  }

  lemma Tripled(p: Point, direction: Point, length: real)
    ensures var q := Along(p, direction, length);
      Point(3.0 * (q.x - p.x), 3.0 * (q.y - p.y)) == Multiple(direction, 3.0 * length)
    ensures var q := Along(p, Opposite(direction), length);
      Point(3.0 * (p.x - q.x), 3.0 * (p.y - q.y)) == Multiple(direction, 3.0 * length)
  {
  }

  /** A path with these handles leans along the click direction at both ends. */
  lemma HandledPathLeans(plan: Plan, scale: real, path: Path)
    requires path.segments != [] && path.start == plan.start
    requires path.segments[0].control1 == StartControl(plan, scale)
    requires var last := path.segments[|path.segments| - 1];
      last.control2 == EndControl(plan, scale) && last.end == plan.end
    ensures LeansAlong(path, plan.click)
  {
    var out, back := HandlesLean(plan, scale);
    var n := |path.segments| - 1;
    var first, last := path.segments[0], path.segments[n];
    EndsTangent(path);
    hide PathPoint, CubicTangent, StartControl, EndControl, Multiple, Along;
    EndTangents(path.start, first.control1, first.control2, first.end);
    EndTangents(SegmentStart(path, n), last.control1, last.control2, last.end);
    Tripled(plan.start, plan.click, out);
    Tripled(plan.end, plan.click, back);
    assert PathPoint(path, 0.0).tangent == Multiple(plan.click, 3.0 * out);
    assert PathPoint(path, 1.0).tangent == Multiple(plan.click, 3.0 * back);
  }

  /** Every candidate leaves its start and reaches its end the way the pointer points. */
  lemma CandidatesLean(plan: Plan, n: nat)
    requires n < 20
    ensures Candidates(plan)[n].segments != [] && LeansAlong(Candidates(plan)[n], plan.click)
  {
    hide StartControl, EndControl, PathPoint, LeansAlong, Normal, StartHandle;
    HandledPathLeans(plan, if n == 1 then 0.65 else 1.0, Candidates(plan)[n]);
  }

  /** The side an arc bulges to first: square to the way, and not away from the way the pointer points. */
  lemma NormalLeans(plan: Plan)
    ensures Times(Normal(plan).x, plan.travel.x) + Times(Normal(plan).y, plan.travel.y) == 0.0
    ensures Normal(plan).x * plan.click.x + Normal(plan).y * plan.click.y >= 0.0
    ensures Times(Normal(plan).x, Normal(plan).x) + Times(Normal(plan).y, Normal(plan).y) ==
      Times(plan.travel.x, plan.travel.x) + Times(plan.travel.y, plan.travel.y)
  {
  }

  /** Where the two halves of an arc meet: off the middle of the way by `out` along the normal, and a sixth part or
      so of the start handle along the click direction; and the handles on both sides of the join lie along the
      way, as far before it as after it. */
  predicate Bulges(plan: Plan, path: Path, out: real, handle: real, normal: Point) {
    && |path.segments| == 2
    && var join := path.segments[0].end;
    && 2.0 * join.x == plan.start.x + plan.end.x + 2.0 * (normal.x * out) + 0.32 * (plan.click.x * StartHandle(plan))
    && 2.0 * join.y == plan.start.y + plan.end.y + 2.0 * (normal.y * out) + 0.32 * (plan.click.y * StartHandle(plan))
    && path.segments[1].control1.x - join.x == join.x - path.segments[0].control2.x == plan.travel.x * handle
    && path.segments[1].control1.y - join.y == join.y - path.segments[0].control2.y == plan.travel.y * handle
  }

  lemma ArcBulges(plan: Plan, distance: real, handle: real, normal: Point)
    ensures Bulges(plan, ArcPath(plan, distance, handle, normal), distance, handle, normal)
  {
    hide StartControl, EndControl, StartHandle;
  }

  /** How long handles and how far out arcs are, for every distance: in proportion to it between two limits.  The
      third limit of a handle, nine tenths of the distance, never counts. */
  lemma SizesOfPlan(plan: Plan)
    ensures var d := plan.distance;
      && StartHandle(plan) == InLimits(d * 0.41960295031576633, 48.0, 640.0)
      && EndHandle(plan) == InLimits(d * 0.15, 48.0, 640.0)
      && ArcDistance(plan) == InLimits(d * 0.2765523188064277, 50.0, 520.0)
      && ArcHandle(plan) == InLimits(d * 0.5783555327868779, 38.0, 440.0)
  {
  }

  function InLimits(value: real, least: real, most: real): real {
    if value < least then least else if value > most then most else value
  }

  function Stepped(first: real, step: real, n: nat): real { first + step * n as real }

  /** The arcs of one side lie at three distances a quarter of the arc distance apart, each with three handles 35 %
      of the arc handle apart; and the other side mirrors them. */
  lemma ArcsSpread(plan: Plan, i: nat, j: nat, k: nat)
    requires i < 3 && j < 3 && k < 2
    ensures Bulges(plan, Candidates(plan)[2 + 6 * i + 2 * j + k],
      Times(ArcDistance(plan), Stepped(0.55, 0.25, i)), Times(ArcHandle(plan), Stepped(0.65, 0.35, j)),
      if k == 0 then Normal(plan) else Opposite(Normal(plan)))
  {
    NextCandidate(plan, i, j, k);
    ScaleSteps(i, j);
    ArcOf(plan, i, j, k);
    hide *;
    ArcBulges(plan, Times(ArcDistance(plan), Stepped(0.55, 0.25, i)), Times(ArcHandle(plan), Stepped(0.65, 0.35, j)),
      if k == 0 then Normal(plan) else Opposite(Normal(plan)));
  }

  lemma ScaleSteps(i: nat, j: nat)
    requires i < 3 && j < 3
    ensures DISTANCE_SCALES[i] == Stepped(0.55, 0.25, i) && HANDLE_SCALES[j] == Stepped(0.65, 0.35, j)
  {
  }

  lemma ArcOf(plan: Plan, i: nat, j: nat, k: nat)
    requires i < 3 && j < 3 && k < 2
    ensures Arc(plan, i, j, k) == ArcPath(plan, Times(ArcDistance(plan), DISTANCE_SCALES[i]),
      Times(ArcHandle(plan), HANDLE_SCALES[j]), if k == 0 then Normal(plan) else Opposite(Normal(plan)))
  {
    hide ArcDistance, ArcHandle, ArcPath, Normal, Opposite;
  }

  /** The two segments of an arc leave and reach their join in one direction, at one speed. */
  lemma ArcIsSmooth(plan: Plan, distance: real, handle: real, normal: Point)
    ensures TangentOn(ArcPath(plan, distance, handle, normal), 0, 1.0) ==
      TangentOn(ArcPath(plan, distance, handle, normal), 1, 0.0)
  {
    hide StartControl, EndControl, StartHandle;
  }

  // ----- choosing --------------------------------------------------------------------------

  const BOUNDS_MARGIN := 20.0

  function Sample(path: Path, k: nat, s: nat): Point
    requires k < |path.segments|
  {
    OnSegment(path, k, s as real / 24.0)
  }

  /** Every sample of the path is inside the margin. */
  predicate SampledInside(path: Path, bounds: Bounds, margin: real) {
    Inside(path.start, bounds, margin) && SampledUpTo(path, bounds, margin, |path.segments|)
  }

  predicate SampledUpTo(path: Path, bounds: Bounds, margin: real, n: nat)
    requires n <= |path.segments|
  {
    forall k, s :: 0 <= k < n && 1 <= s <= 24 ==> Inside(Sample(path, k, s), bounds, margin)
  }

  method RemainsInside(path: Path, bounds: Bounds, margin: real) returns (inside: bool)
    ensures inside <==> SampledInside(path, bounds, margin)
  {
    hide Inside, CubicPoint;
    inside := Inside(path.start, bounds, margin);
    var segmentStart := path.start;
    var k := 0;
    while k < |path.segments|
      invariant k <= |path.segments|
      invariant k < |path.segments| ==> segmentStart == SegmentStart(path, k)
      invariant inside <==> Inside(path.start, bounds, margin) && SampledUpTo(path, bounds, margin, k)
    {
      var segment := path.segments[k];
      var sample := 1;
      ghost var before := inside;
      while sample <= 24
        invariant 1 <= sample <= 25
        invariant inside <==> before && forall s :: 1 <= s < sample ==> Inside(Sample(path, k, s), bounds, margin)
      {
        var point := CubicPoint(segmentStart, segment.control1, segment.control2, segment.end, sample as real / 24.0);
        assert point == Sample(path, k, sample);
        inside := inside && Inside(point, bounds, margin);
        sample := sample + 1;
      }
      segmentStart := segment.end;
      k := k + 1;
    }
  }

  /** Between samples a path strays by no more than a sixteenth of its spread. */
  lemma SampledClose(path: Path, bounds: Bounds, margin: real, low: Point, high: Point, progress: real)
    requires path.segments != [] && Spread(path, low, high) && SampledInside(path, bounds, margin)
    ensures var p, x, y := PathPoint(path, progress).point, (high.x - low.x) / 16.0, (high.y - low.y) / 16.0;
      margin - x <= p.x <= bounds.width - margin + x && margin - y <= p.y <= bounds.height - margin + y
  {
    var u := Scale(path, progress);
    var n := |path.segments|;
    PathPointIsAt(path, progress);
    hide PathPoint, Scale, Spread, At, OnSegment, SampledInside;
    var k := if u == n as real then n - 1 else u.Floor;
    var t := u - k as real;
    AtIs(path, k, u);
    var s := (24.0 * t + 0.5).Floor;
    assert -1.0 / 48.0 <= t - s as real / 24.0 <= 1.0 / 48.0;
    SampleInside(path, bounds, margin, k, s);
    SampleNear(path, k, t, s, low, high);
  }

  lemma SampleInside(path: Path, bounds: Bounds, margin: real, k: nat, s: nat)
    requires SampledInside(path, bounds, margin) && k < |path.segments| && s <= 24
    ensures Inside(Sample(path, k, s), bounds, margin)
  {
    hide CubicPoint, Inside;
    if s == 0 {
      var g := path.segments[k];
      CubicEnds(SegmentStart(path, k), g.control1, g.control2, g.end);
      if k > 0 {
        var g' := path.segments[k - 1];
        CubicEnds(SegmentStart(path, k - 1), g'.control1, g'.control2, g'.end);
        assert 24 as real / 24.0 == 1.0;
        assert Sample(path, k - 1, 24) == g'.end;
        assert Sample(path, k, 0) == Sample(path, k - 1, 24);
      }
    }
  }

  lemma SampleNear(path: Path, k: nat, t: real, s: nat, low: Point, high: Point)
    requires Spread(path, low, high) && k < |path.segments| && 0.0 <= t <= 1.0 && s <= 24
    requires -1.0 / 48.0 <= t - s as real / 24.0 <= 1.0 / 48.0
    ensures Near(OnSegment(path, k, t).x, Sample(path, k, s).x, (high.x - low.x) / 16.0)
    ensures Near(OnSegment(path, k, t).y, Sample(path, k, s).y, (high.y - low.y) / 16.0)
  {
    var at := s as real / 24.0;
    var d := if t < at then at - t else t - at;
    SpreadWidth(path, low, high);
    hide OnSegment, Spread, Times;
    if t < at { OnSegmentMoves(path, k, t, at, low, high); } else { OnSegmentMoves(path, k, at, t, low, high); }
    Sixteenth(high.x - low.x, d);
    Sixteenth(high.y - low.y, d);
  }

  lemma SpreadWidth(path: Path, low: Point, high: Point)
    requires Spread(path, low, high)
    ensures low.x <= high.x && low.y <= high.y
  {
  }

  lemma Sixteenth(w: real, d: real)
    requires 0.0 <= w && d <= 1.0 / 48.0
    ensures 3.0 * Times(w, d) <= w / 16.0
  {
  }

  /** The first of the least scores among those of the first `n` candidates that may be chosen. */
  ghost predicate FirstLeast(plan: Plan, score: Path -> real, onlyInside: bool, best: nat, n: nat)
    requires n <= 20
  {
    && best < n && Eligible(plan, onlyInside, best)
    && (forall i :: 0 <= i < n && Eligible(plan, onlyInside, i) ==>
      score(Candidates(plan)[best]) <= score(Candidates(plan)[i]))
    && (forall i :: 0 <= i < best && Eligible(plan, onlyInside, i) ==>
      score(Candidates(plan)[best]) < score(Candidates(plan)[i]))
  }

  predicate Eligible(plan: Plan, onlyInside: bool, i: nat)
    requires i < 20
  {
    onlyInside ==> SampledInside(Candidates(plan)[i], plan.bounds, BOUNDS_MARGIN)
  }

  /** A least-score candidate among those sampled inside the margin, or among all when there are none. */
  method ChoosePath(plan: Plan, score: Path -> real) returns (path: Path, ghost best: nat)
    ensures best < 20 && path == Candidates(plan)[best]
    ensures FirstLeast(plan, score, exists i :: 0 <= i < 20 && Eligible(plan, true, i), best, 20)
    ensures Whole(path) && path.start == plan.start && path.end == plan.end
  {
    var candidates := PathCandidates(plan);
    hide Candidates, SampledInside, Whole;
    var bestAny, anyFinite := 0, false;
    var bestInside, insideFinite := 0, false;
    var i := 0;
    while i < 20
      invariant i <= 20 && bestAny < 20 && bestInside < 20
      invariant anyFinite <==> i > 0
      invariant anyFinite ==> FirstLeast(plan, score, false, bestAny, i)
      invariant insideFinite <==> exists j :: 0 <= j < i && Eligible(plan, true, j)
      invariant insideFinite ==> FirstLeast(plan, score, true, bestInside, i)
    {
      var remainsInside := RemainsInside(candidates[i], plan.bounds, BOUNDS_MARGIN);
      assert remainsInside <==> Eligible(plan, true, i);
      if !anyFinite || score(candidates[i]) < score(candidates[bestAny]) { bestAny, anyFinite := i, true; }
      if remainsInside && (!insideFinite || score(candidates[i]) < score(candidates[bestInside])) {
        bestInside, insideFinite := i, true;
      }
      i := i + 1;
    }
    best := if insideFinite then bestInside else bestAny;
    path := candidates[if insideFinite then bestInside else bestAny];
    CandidatesLead(plan, best);
  }
}
