/** Scrolling: the chained scroll and the eased animation
    (packages/strake-dom/src/scrolling.rs). Offsets are real numbers. */
module ScrollMath {

  datatype Point = Point(x: real, y: real)

  const ZERO := Point(0.0, 0.0)

  function Plus(p: Point, q: Point): Point {
    Point(p.x + q.x, p.y + q.y)
  }

  function Less(p: Point, q: Point): Point {
    Point(p.x - q.x, p.y - q.y)
  }

  function Clamp(v: real, max: real): (r: real)
    ensures 0.0 <= max ==> 0.0 <= r <= max
    ensures 0.0 <= v <= max ==> r == v
    ensures r < v ==> r == max
    ensures v < r ==> r == 0.0
  {
    if v < 0.0 then 0.0 else if max < v then max else v
  }

  function ClampPoint(p: Point, max: Point): Point {
    Point(Clamp(p.x, max.x), Clamp(p.y, max.y))
  }

  /** A scroller: where it stands and how far it can go. */
  datatype Slot = Slot(offset: Point, max: Point)

  predicate InRange(p: Point, max: Point) {
    0.0 <= p.x <= max.x && 0.0 <= p.y <= max.y
  }

  /** The chain's offsets after scrolling by d, innermost scroller first. */
  function Spread(d: Point, chain: seq<Slot>): (r: seq<Point>)
    ensures |r| == |chain|
    decreases |chain|
  {
    if chain == [] then []
    else
      var end := ClampPoint(Plus(chain[0].offset, d), chain[0].max);
      var left := Less(Plus(chain[0].offset, d), end);
      [end] + if left == ZERO then Offsets(chain[1..]) else Spread(left, chain[1..])
  }

  function Offsets(chain: seq<Slot>): (r: seq<Point>)
    ensures |r| == |chain| && forall i :: 0 <= i < |chain| ==> r[i] == chain[i].offset
  {
    seq(|chain|, i requires 0 <= i < |chain| => chain[i].offset)
  }

  /** What no scroller of the chain could consume. */
  function Remainder(d: Point, chain: seq<Slot>): Point
    decreases |chain|
  {
    if chain == [] then d
    else
      var end := ClampPoint(Plus(chain[0].offset, d), chain[0].max);
      var left := Less(Plus(chain[0].offset, d), end);
      if left == ZERO then ZERO else Remainder(left, chain[1..])
  }

  /** The sum of all offset changes. */
  function Moved(before: seq<Point>, after: seq<Point>): Point
    requires |before| == |after|
  {
    if before == [] then ZERO else Plus(Less(after[0], before[0]), Moved(before[1..], after[1..]))
  }

  lemma {:induction false} NothingMoved(ps: seq<Point>)
    ensures Moved(ps, ps) == ZERO
  {
    if ps != [] { NothingMoved(ps[1..]); }
  }

  lemma MovedSplit(p: Point, ps: seq<Point>, q: Point, qs: seq<Point>)
    requires |ps| == |qs|
    ensures Moved([p] + ps, [q] + qs) == Plus(Less(q, p), Moved(ps, qs))
  {
    assert ([p] + ps)[1..] == ps && ([q] + qs)[1..] == qs;
  }

  /** Conservation: what the scrollers moved and what is left add up to d. */
  lemma {:induction false} Conserved(d: Point, chain: seq<Slot>)
    ensures Plus(Moved(Offsets(chain), Spread(d, chain)), Remainder(d, chain)) == d
    decreases |chain|
  {
    hide Clamp;
    if chain != [] {
      var end := ClampPoint(Plus(chain[0].offset, d), chain[0].max);
      var left := Less(Plus(chain[0].offset, d), end);
      var rest := chain[1..];
      var tail := if left == ZERO then Offsets(rest) else Spread(left, rest);
      assert Spread(d, chain) == [end] + tail;
      MovedSplit(chain[0].offset, Offsets(rest), end, tail);
      assert Offsets(chain) == [chain[0].offset] + Offsets(rest);
      if left == ZERO { NothingMoved(Offsets(rest)); } else { Conserved(left, rest); }
    }
  }

  /** Scrollers that start inside their range end inside it. */
  lemma {:induction false} StaysInRange(d: Point, chain: seq<Slot>)
    requires forall i :: 0 <= i < |chain| ==> InRange(chain[i].offset, chain[i].max)
    ensures forall i :: 0 <= i < |chain| ==> InRange(Spread(d, chain)[i], chain[i].max)
    decreases |chain|
  {
    if chain != [] {
      var left := Less(Plus(chain[0].offset, d), ClampPoint(Plus(chain[0].offset, d), chain[0].max));
      StaysInRange(left, chain[1..]);
      forall i | 0 < i < |chain| ensures InRange(Spread(d, chain)[i], chain[i].max) {
        assert chain[i] == chain[1..][i - 1];
      }
    }
  }

  /** The limit of a scroller in the direction of a delta. */
  predicate AtLimit(v: real, max: real, d: real) {
    if d > 0.0 then v == max else v == 0.0
  }

  /** Inner before outer: an axis of a scroller moves only in the direction of d,
      and only if every scroller inside it has reached its limit. */
  lemma {:induction false} InnerFirst(d: Point, chain: seq<Slot>, j: nat)
    requires j < |chain| && forall i :: 0 <= i < |chain| ==> InRange(chain[i].offset, chain[i].max)
    ensures var after := Spread(d, chain);
            && (after[j].x != chain[j].offset.x ==>
                  && d.x != 0.0 && (d.x > 0.0 <==> after[j].x > chain[j].offset.x)
                  && forall i :: 0 <= i < j ==> AtLimit(after[i].x, chain[i].max.x, d.x))
            && (after[j].y != chain[j].offset.y ==>
                  && d.y != 0.0 && (d.y > 0.0 <==> after[j].y > chain[j].offset.y)
                  && forall i :: 0 <= i < j ==> AtLimit(after[i].y, chain[i].max.y, d.y))
    decreases |chain|
  {
    var end := ClampPoint(Plus(chain[0].offset, d), chain[0].max);
    var left := Less(Plus(chain[0].offset, d), end);
    if j > 0 {
      var rest := chain[1..];
      assert chain[j] == rest[j - 1];
      if left != ZERO {
        InnerFirst(left, rest, j - 1);
        var after := Spread(d, chain);
        assert after[j] == Spread(left, rest)[j - 1];
        forall i | 0 < i < j
          ensures after[i] == Spread(left, rest)[i - 1] && chain[i] == rest[i - 1]
        {
        }
        assert left.x != 0.0 ==> AtLimit(end.x, chain[0].max.x, d.x) && (left.x > 0.0 <==> d.x > 0.0);
        assert left.y != 0.0 ==> AtLimit(end.y, chain[0].max.y, d.y) && (left.y > 0.0 <==> d.y > 0.0);
      }
    }
  }

  /** Nothing is left unless every scroller is at its limit, and then it points
      the way of d. */
  lemma {:induction false} LeftoverMeansLimits(d: Point, chain: seq<Slot>)
    requires forall i :: 0 <= i < |chain| ==> InRange(chain[i].offset, chain[i].max)
    ensures var r := Remainder(d, chain); var after := Spread(d, chain);
            && (r.x != 0.0 ==> (r.x > 0.0 <==> d.x > 0.0) && d.x != 0.0 && forall i :: 0 <= i < |chain| ==> AtLimit(after[i].x, chain[i].max.x, d.x))
            && (r.y != 0.0 ==> (r.y > 0.0 <==> d.y > 0.0) && d.y != 0.0 && forall i :: 0 <= i < |chain| ==> AtLimit(after[i].y, chain[i].max.y, d.y))
    decreases |chain|
  {
    if chain != [] {
      var end := ClampPoint(Plus(chain[0].offset, d), chain[0].max);
      var left := Less(Plus(chain[0].offset, d), end);
      var rest := chain[1..];
      if left != ZERO {
        LeftoverMeansLimits(left, rest);
        var after := Spread(d, chain);
        forall i | 0 < i < |chain| ensures after[i] == Spread(left, rest)[i - 1] && chain[i] == rest[i - 1] { }
      }
    }
  }

  // ------------------------------------------------------------------- easing

  function EaseInOutCubic(t: real): real {
    if t < 0.5 then 4.0 * t * t * t
    else
      var f := 2.0 * t - 2.0;
      1.0 + (f * f * f) / 2.0
  }

  /** The easing is a cubic from 0 to the middle and the same backwards from 1. */
  lemma EaseCubic(t: real, k: real)
    ensures EaseInOutCubic(0.5) == 0.5
    ensures 0.0 <= t <= 0.5 && 0.0 <= k <= 1.0 ==> EaseInOutCubic(k * t) == k * k * k * EaseInOutCubic(t)
    ensures 0.0 <= t <= 1.0 ==> EaseInOutCubic(1.0 - t) == 1.0 - EaseInOutCubic(t)
  {
    if 0.0 <= t <= 0.5 && 0.0 <= k <= 1.0 {
      Scaled(t, k);
      FirstHalf(t);
      FirstHalf(k * t);
      CubeOfProduct(k, t);
    }
    Mirrored(t);
  }

  lemma Scaled(t: real, k: real)
    requires 0.0 <= t <= 0.5 && 0.0 <= k <= 1.0
    ensures 0.0 <= k * t <= 0.5
  {
    var j := 1.0 - k;
    Product(j, t);
    Product(k, t);
    assert j * t == t - k * t;
  }

  lemma Product(a: real, b: real)
    requires 0.0 <= a && 0.0 <= b
    ensures 0.0 <= a * b
  {
  }

  lemma FirstHalf(t: real)
    requires t <= 0.5
    ensures EaseInOutCubic(t) == 4.0 * (t * t * t)
  {
    if t == 0.5 { assert t * t * t == 0.125; }
  }

  lemma CubeOfProduct(k: real, t: real)
    ensures 4.0 * ((k * t) * (k * t) * (k * t)) == k * k * k * (4.0 * (t * t * t))
  {
    var p, q := k * k * k, t * t * t;
    assert (k * t) * (k * t) == (k * k) * (t * t);
    assert (k * t) * (k * t) * (k * t) == (k * k) * (t * t) * (k * t) == p * q;
  }

  lemma Mirrored(t: real)
    ensures EaseInOutCubic(1.0 - t) == 1.0 - EaseInOutCubic(t)
  {
    var s := 1.0 - t;
    if t < 0.5 {
      var f := 2.0 * s - 2.0;
      assert f == -2.0 * t;
      CubeMirror(t);
    } else if t > 0.5 {
      var f := 2.0 * t - 2.0;
      assert f == -2.0 * s;
      CubeMirror(s);
    }
  }

  lemma CubeMirror(t: real)
    ensures (-2.0 * t) * (-2.0 * t) * (-2.0 * t) == -8.0 * (t * t * t)
  {
    var u := t * t;
    assert (-2.0 * t) * (-2.0 * t) == 4.0 * u;
    assert (4.0 * u) * (-2.0 * t) == -8.0 * (u * t);
  }

  lemma Square(a: real)
    ensures a * a >= 0.0
  {
    if a < 0.0 {
      var n := -a;
      assert n * n >= 0.0;
      assert n * n == a * a;
    }
  }

  lemma Squares(a: real, b: real)
    ensures a * a + a * b + b * b >= 0.0
  {
    Square(a);
    Square(b);
    Square(a + b);
    assert (a + b) * (a + b) == a * a + 2.0 * (a * b) + b * b;
  }

  lemma CubeMonotone(a: real, b: real)
    requires a <= b
    ensures a * a * a <= b * b * b
  {
    Squares(a, b);
    var s := a * a + a * b + b * b;
    assert (b - a) * s >= 0.0;
    CubeDifference(a, b);
  }

  lemma CubeDifference(a: real, b: real)
    ensures b * b * b - a * a * a == (b - a) * (a * a + a * b + b * b)
  {
    var p, q, r := a * a, a * b, b * b;
    assert (b - a) * (p + q + r) == b * p + b * q + b * r - a * p - a * q - a * r;
    assert b * p == a * q && b * q == a * r;
  }

  /** The easing rises from 0 to 1 without leaving the unit interval. */
  lemma EaseMonotone(s: real, t: real)
    requires 0.0 <= s <= t <= 1.0
    ensures 0.0 <= EaseInOutCubic(s) <= EaseInOutCubic(t) <= 1.0
    ensures EaseInOutCubic(0.0) == 0.0 && EaseInOutCubic(1.0) == 1.0
  {
    EaseBounds(s);
    EaseBounds(t);
    if t < 0.5 {
      CubeMonotone(s, t);
      Cube4(s);
      Cube4(t);
    } else if 0.5 <= s {
      CubeMonotone(2.0 * s - 2.0, 2.0 * t - 2.0);
    }
  }

  lemma Cube4(t: real)
    ensures 4.0 * t * t * t == 4.0 * (t * t * t)
  {
  }

  /** The first piece stays below one half, the second above it. */
  lemma EaseBounds(t: real)
    requires 0.0 <= t <= 1.0
    ensures t < 0.5 ==> 0.0 <= EaseInOutCubic(t) <= 0.5
    ensures 0.5 <= t ==> 0.5 <= EaseInOutCubic(t) <= 1.0
  {
    if t < 0.5 {
      CubeMonotone(0.0, t);
      CubeMonotone(t, 0.5);
      Cube4(t);
    } else {
      var f := 2.0 * t - 2.0;
      CubeMonotone(-1.0, f);
      CubeMonotone(f, 0.0);
    }
  }

  /** v is no farther from b than u, both between a and b. */
  predicate Toward(a: real, b: real, u: real, v: real) {
    (a <= u <= v <= b) || (b <= v <= u <= a)
  }

  function Times(k: real, e: real): real {
    k * e
  }

  function Interpolate(a: real, b: real, e: real): real {
    a + Times(b - a, e)
  }

  lemma InterpolateToward(a: real, b: real, d: real, e: real)
    requires 0.0 <= d <= e <= 1.0
    ensures Toward(a, b, Interpolate(a, b, d), Interpolate(a, b, e))
  {
    hide Times;
    if a <= b {
      Portions(b - a, d, e);
    } else {
      Portions(a - b, d, e);
      Opposite(a - b, d);
      Opposite(a - b, e);
      assert -(a - b) == b - a;
    }
  }

  lemma Portions(k: real, d: real, e: real)
    requires 0.0 <= k && 0.0 <= d <= e <= 1.0
    ensures 0.0 <= Times(k, d) <= Times(k, e) <= k
  {
    hide Times;
    TimesEnds(k);
    Scale(k, 0.0, d);
    Scale(k, d, e);
    Scale(k, e, 1.0);
  }

  lemma TimesEnds(k: real)
    ensures Times(k, 0.0) == 0.0 && Times(k, 1.0) == k
  {
  }

  lemma Opposite(k: real, d: real)
    ensures Times(-k, d) == -Times(k, d)
  {
  }

  lemma Scale(k: real, d: real, e: real)
    requires 0.0 <= k && d <= e
    ensures Times(k, d) <= Times(k, e)
  {
    var m := e - d;
    assert k * m >= 0.0;
    assert k * m == k * e - k * d;
  }
}

module Scrolling {
  import opened Shapes
  import opened Nodes
  import opened Moves
  import opened Ancestry
  import opened Paint
  import opened Document
  import opened ScrollMath

  datatype ScrollTarget = OnNode(id: NodeId) | Viewport

  datatype ScrollAmount = To(offset: Point) | By(delta: Point)

  /** The offset an amount asks for, before clamping. */
  function Asked(amount: ScrollAmount, current: Point): Point {
    match amount
    case To(p) => p
    case By(d) => Plus(current, d)
  }

  datatype ScrollOverflow = ClampOverflow | Chain

  datatype ScrollSource = User | Programmatic

  datatype ScrollBehavior = Auto | Instant | Smooth

  datatype ScrollRequest = ScrollRequest(
    target: ScrollTarget, amount: ScrollAmount, overflow: ScrollOverflow, source: ScrollSource,
    behavior: ScrollBehavior, interruptAnimation: bool)

  datatype Animation =
    | NoAnimation
    | ScrollTo(target: ScrollTarget, start: Point, end: Point, startTime: real, duration: real)

  const SMOOTH_SCROLL_DURATION_MS := 300.0

  /** A request may end a running smooth scroll. */
  function Interrupted(anim: Animation, interrupt: bool): Animation {
    if interrupt && anim.ScrollTo? then NoAnimation else anim
  }

  lemma Interrupts(anim: Animation, interrupt: bool)
    ensures Interrupted(anim, interrupt) == (if interrupt && anim.ScrollTo? then NoAnimation else anim)
    ensures Interrupted(Interrupted(anim, interrupt), interrupt) == Interrupted(anim, interrupt)
  {
  }

  /** What layout and style say of a scroller: its range for the user, its range
      counting overflow: hidden, and whether it scrolls smoothly by itself. */
  datatype Extent = Extent(user: Point, all: Point, smooth: bool)

  predicate ProperExtent(e: Extent) {
    0.0 <= e.user.x && 0.0 <= e.user.y && 0.0 <= e.all.x && 0.0 <= e.all.y
  }

  /** The first element child of the document root. */
  function RootElement(a: Arena, root: NodeId): Option<NodeId> {
    if root in a then FirstElement(a, a[root].children) else None
  }

  function FirstElement(a: Arena, cs: seq<NodeId>): Option<NodeId> {
    if cs == [] then None
    else if cs[0] in a && a[cs[0]].data.Element? then Some(cs[0])
    else FirstElement(a, cs[1..])
  }

  /** The root element scrolls the viewport. */
  function Canonical(a: Arena, root: NodeId, t: ScrollTarget): ScrollTarget {
    if t.OnNode? && RootElement(a, root) == Some(t.id) then Viewport else t
  }

  function NextInChain(a: Arena, t: ScrollTarget): Option<ScrollTarget> {
    match t
    case Viewport => None
    case OnNode(x) => Some(if x in a && a[x].parent.Some? then OnNode(a[x].parent.value) else Viewport)
  }

  // ------------------------------------------------------------------ the chain

  ghost function ChainLeft(a: Arena, t: ScrollTarget): int {
    match t
    case Viewport => 0
    case OnNode(x) => 1 + ClimbLeft(a, Some(x))
  }

  /** The climb gets closer to the viewport with every step. */
  lemma ChainStep(a: Arena, root: NodeId, t: ScrollTarget)
    requires Tree(a, root) && t.OnNode?
    ensures 0 <= ChainLeft(a, Canonical(a, root, NextInChain(a, t).value)) < ChainLeft(a, t)
  {
    hide Tree, Above;
    TreeForest(a, root);
    if t.id in a && a[t.id].parent.Some? {
      ParentFacts(a, root, t.id);
      AboveStep(a, root, t.id, t.id);
      ClimbStep(a, root, t.id, t.id);
    }
  }

  /** The scrollers from t (canonical) to the viewport, innermost first. */
  ghost function ChainFrom(a: Arena, root: NodeId, t: ScrollTarget): seq<ScrollTarget>
    requires Tree(a, root)
    decreases ChainLeft(a, t)
  {
    match t
    case Viewport => [Viewport]
    case OnNode(_) =>
      ChainStep(a, root, t);
      [t] + ChainFrom(a, root, Canonical(a, root, NextInChain(a, t).value))
  }

  /** The chain is bounded, ends at the viewport and visits nobody twice. */
  lemma {:induction false} ChainShape(a: Arena, root: NodeId, t: ScrollTarget)
    requires Tree(a, root)
    ensures var c := ChainFrom(a, root, t);
            && 0 < |c| <= 1 + ChainLeft(a, t) && c[0] == t && c[|c| - 1] == Viewport
            && (forall i :: 0 < i < |c| ==> ChainLeft(a, c[i]) < ChainLeft(a, t))
            && (forall i, j :: 0 <= i < j < |c| ==> c[i] != c[j])
    decreases ChainLeft(a, t)
  {
    hide Tree, ClimbLeft, Canonical;
    if t.OnNode? {
      ChainStep(a, root, t);
      var next := Canonical(a, root, NextInChain(a, t).value);
      ChainShape(a, root, next);
      var rest := ChainFrom(a, root, next);
      forall i | 0 < i < |rest| + 1 ensures ChainLeft(a, ([t] + rest)[i]) < ChainLeft(a, t) {
        assert ([t] + rest)[i] == rest[i - 1];
      }
    } else {
      assert ChainFrom(a, root, t) == [Viewport];
    }
  }

  // ------------------------------------------------------ who is on the chain

  /** r is the first element among the children of the document root. */
  ghost predicate IsRootElement(a: Arena, root: NodeId, r: NodeId) {
    && r in a && a[r].data.Element? && root in a
    && var cs := a[root].children;
       exists i :: 0 <= i < |cs| && cs[i] == r && (forall j :: 0 <= j < i ==> !(cs[j] in a && a[cs[j]].data.Element?))
  }

  lemma {:induction false} FirstElementIs(a: Arena, cs: seq<NodeId>)
    ensures match FirstElement(a, cs)
            case Some(r) =>
              && r in a && a[r].data.Element?
              && (exists i :: 0 <= i < |cs| && cs[i] == r && (forall j :: 0 <= j < i ==> !(cs[j] in a && a[cs[j]].data.Element?)))
            case None => forall j :: 0 <= j < |cs| ==> !(cs[j] in a && a[cs[j]].data.Element?)
  {
    if cs != [] && !(cs[0] in a && a[cs[0]].data.Element?) {
      FirstElementIs(a, cs[1..]);
      if FirstElement(a, cs).Some? {
        var r := FirstElement(a, cs).value;
        var i :| 0 <= i < |cs[1..]| && cs[1..][i] == r && forall j :: 0 <= j < i ==> !(cs[1..][j] in a && a[cs[1..][j]].data.Element?);
        assert cs[i + 1] == r;
        forall j | 0 <= j < i + 1 ensures !(cs[j] in a && a[cs[j]].data.Element?) { if j > 0 { assert cs[j] == cs[1..][j - 1]; } }
      } else {
        forall j | 0 <= j < |cs| ensures !(cs[j] in a && a[cs[j]].data.Element?) { if j > 0 { assert cs[j] == cs[1..][j - 1]; } }
      }
    }
  }

  lemma RootElementIs(a: Arena, root: NodeId, r: NodeId)
    ensures RootElement(a, root) == Some(r) <==> IsRootElement(a, root, r)
  {
    if root in a {
      var cs := a[root].children;
      FirstElementIs(a, cs);
    }
  }

  /** y is the root element or above it, seen from x below the root element. */
  ghost predicate Beyond(a: Arena, root: NodeId, y: NodeId, x: NodeId) {
    exists r :: IsRootElement(a, root, r) && Above(a, r, x) && Above(a, y, r)
  }

  /** The scrollers a scroll at x reaches, innermost first: x and its ancestors, one
      parent after the other, up to below the root element, and the viewport. */
  ghost predicate Reaches(a: Arena, root: NodeId, x: Option<NodeId>, c: seq<ScrollTarget>) {
    && c != [] && c[|c| - 1] == Viewport
    && (forall i :: 0 <= i < |c| - 1 ==> c[i].OnNode?)
    && (forall i :: 0 <= i < |c| - 2 ==> c[i].id in a && a[c[i].id].parent == Some(c[i + 1].id))
    && (x == None ==> c == [Viewport])
    && (x.Some? && x.value !in a ==> c == [OnNode(x.value), Viewport])
    && (x.Some? && x.value in a ==>
          (forall y :: OnNode(y) in c <==> Above(a, y, x.value) && !Beyond(a, root, y, x.value)))
    && (x.Some? && |c| > 1 ==> c[0] == OnNode(x.value))
  }

  /** The same of the chain of a scroller that is not the root element. */
  lemma {:induction false} ChainReaches(a: Arena, root: NodeId, x: NodeId)
    requires Tree(a, root) && RootElement(a, root) != Some(x)
    ensures Reaches(a, root, Some(x), ChainFrom(a, root, OnNode(x)))
    decreases ChainLeft(a, OnNode(x))
  {
    hide Tree, Above, RootElement, Beyond, IsRootElement, ChainFrom, ChainLeft;
    var t, c := OnNode(x), ChainFrom(a, root, OnNode(x));
    ChainStep(a, root, t);
    ChainUnfold(a, root, t);
    ChainUnfold(a, root, Viewport);
    if x in a {
      AboveStep(a, root, x, x);
      var p := a[x].parent;
      if p.Some? && RootElement(a, root) != p {
        ChainReaches(a, root, p.value);
        ChainShape(a, root, OnNode(p.value));
        ReachesOn(a, root, x, ChainFrom(a, root, OnNode(p.value)));
      } else {
        assert c == [t, Viewport];
        forall y ensures OnNode(y) in c <==> Above(a, y, x) && !Beyond(a, root, y, x) {
          AboveStep(a, root, x, y);
          BeyondStep(a, root, y, x);
          BeyondSelf(a, root, x);
        }
      }
    }
  }

  /** Seen from one node further out. */
  lemma BeyondStep(a: Arena, root: NodeId, y: NodeId, x: NodeId)
    requires Tree(a, root) && x in a && RootElement(a, root) != Some(x)
    ensures a[x].parent == None ==> !Beyond(a, root, y, x)
    ensures a[x].parent.Some? ==>
      var p := a[x].parent.value;
      Beyond(a, root, y, x) <==> if RootElement(a, root) == Some(p) then Above(a, y, p) else Beyond(a, root, y, p)
  {
    hide Tree, Above, RootElement, IsRootElement;
    forall r: NodeId ensures IsRootElement(a, root, r) <==> RootElement(a, root) == Some(r) { RootElementIs(a, root, r); }
    if RootElement(a, root).Some? {
      AboveStep(a, root, x, RootElement(a, root).value);
    }
    if a[x].parent.Some? {
      AboveStep(a, root, x, x);
      AboveStep(a, root, a[x].parent.value, a[x].parent.value);
    }
  }

  lemma BeyondSelf(a: Arena, root: NodeId, x: NodeId)
    requires Tree(a, root) && x in a && RootElement(a, root) != Some(x)
    ensures !Beyond(a, root, x, x)
  {
    hide Tree, Above, RootElement, IsRootElement;
    if r :| IsRootElement(a, root, r) && Above(a, r, x) && Above(a, x, r) {
      RootElementIs(a, root, r);
      AboveBoth(a, r, x);
    }
  }

  lemma ReachesOn(a: Arena, root: NodeId, x: NodeId, rest: seq<ScrollTarget>)
    requires Tree(a, root) && x in a && a[x].parent.Some? && RootElement(a, root) != Some(x) && RootElement(a, root) != a[x].parent
    requires Reaches(a, root, a[x].parent, rest) && rest[0] == OnNode(a[x].parent.value)
    ensures Reaches(a, root, Some(x), [OnNode(x)] + rest)
  {
    hide Tree, Above, RootElement, Beyond;
    var c, p := [OnNode(x)] + rest, a[x].parent.value;
    AboveStep(a, root, x, x);
    forall y ensures OnNode(y) in c <==> Above(a, y, x) && !Beyond(a, root, y, x) {
      AboveStep(a, root, x, y);
      BeyondStep(a, root, y, x);
      BeyondSelf(a, root, x);
      assert OnNode(y) in c <==> y == x || OnNode(y) in rest;
    }
    forall i | 0 < i < |c| ensures c[i] == rest[i - 1] { }
  }

  /** The chain of an anchor, or of none, as a user's scroll takes it. */
  lemma AnchorReaches(a: Arena, root: NodeId, x: Option<NodeId>)
    requires Tree(a, root)
    ensures Reaches(a, root, x, ChainFrom(a, root, Canonical(a, root, if x.Some? then OnNode(x.value) else Viewport)))
  {
    hide Tree, Above, RootElement, IsRootElement, ChainFrom;
    ChainUnfold(a, root, Viewport);
    if x.Some? && RootElement(a, root) != x {
      ChainReaches(a, root, x.value);
    } else if x.Some? {
      RootElementIs(a, root, x.value);
      assert x.value in a by { RootElementLive(a, root, x.value); }
      AboveStep(a, root, x.value, x.value);
    }
  }

  lemma RootElementLive(a: Arena, root: NodeId, r: NodeId)
    requires IsRootElement(a, root, r)
    ensures r in a
  {
  }

  // ------------------------------------------------------------------ offsets

  datatype Offsets = Offsets(nodes: map<NodeId, Point>, viewport: Point)

  function OffsetOf(a: Arena, o: Offsets, t: ScrollTarget): Point {
    match t
    case Viewport => o.viewport
    case OnNode(x) => if x in a && x in o.nodes then o.nodes[x] else ZERO
  }

  /** What layout and style say of every scroller. */
  datatype Layout = Layout(nodes: map<NodeId, Extent>, viewport: Extent)

  function ExtentOf(a: Arena, l: Layout, t: ScrollTarget): Extent {
    match t
    case Viewport => l.viewport
    case OnNode(x) => if x in a && x in l.nodes then l.nodes[x] else Extent(ZERO, ZERO, false)
  }

  predicate ProperLayout(l: Layout) {
    ProperExtent(l.viewport) && forall x :: x in l.nodes ==> ProperExtent(l.nodes[x])
  }

  function SlotOf(a: Arena, o: Offsets, l: Layout, hidden: bool, t: ScrollTarget): Slot {
    var e := ExtentOf(a, l, t);
    Slot(OffsetOf(a, o, t), if hidden || t.Viewport? then e.all else e.user)
  }

  function SlotsOf(a: Arena, o: Offsets, l: Layout, hidden: bool, chain: seq<ScrollTarget>): (r: seq<Slot>)
    ensures |r| == |chain| && forall i :: 0 <= i < |chain| ==> r[i] == SlotOf(a, o, l, hidden, chain[i])
  {
    seq(|chain|, i requires 0 <= i < |chain| => SlotOf(a, o, l, hidden, chain[i]))
  }

  /** The scroll by d, started at the head of the chain, has taken o to o'. */
  ghost predicate Scrolled(a: Arena, l: Layout, hidden: bool, chain: seq<ScrollTarget>, d: Point, o: Offsets, o': Offsets) {
    var after := Spread(d, SlotsOf(a, o, l, hidden, chain));
    && (forall i :: 0 <= i < |chain| ==> OffsetOf(a, o', chain[i]) == after[i])
    && (forall t :: t !in chain ==> OffsetOf(a, o', t) == OffsetOf(a, o, t))
  }

  /** Somebody on the chain moved. */
  ghost predicate SomeMoved(a: Arena, chain: seq<ScrollTarget>, o: Offsets, o': Offsets) {
    exists t :: t in chain && OffsetOf(a, o', t) != OffsetOf(a, o, t)
  }

  /** Only t's offset changed, to v. */
  ghost predicate Wrote(a: Arena, o: Offsets, t: ScrollTarget, v: Point, o': Offsets) {
    OffsetOf(a, o', t) == v && forall u :: u != t ==> OffsetOf(a, o', u) == OffsetOf(a, o, u)
  }

  lemma HeadScrolled(a: Arena, l: Layout, hidden: bool, chain: seq<ScrollTarget>, d: Point, o: Offsets, o': Offsets)
    requires chain != [] && forall i, j :: 0 <= i < j < |chain| ==> chain[i] != chain[j]
    requires var s := SlotOf(a, o, l, hidden, chain[0]);
             var end := ClampPoint(Plus(s.offset, d), s.max);
             Wrote(a, o, chain[0], end, o') && (Less(Plus(s.offset, d), end) == ZERO || |chain| == 1)
    ensures Scrolled(a, l, hidden, chain, d, o, o')
    ensures SomeMoved(a, chain, o, o') <==> OffsetOf(a, o', chain[0]) != OffsetOf(a, o, chain[0])
  {
    hide OffsetOf, ExtentOf, ClampPoint, Spread;
    var slots := SlotsOf(a, o, l, hidden, chain);
    SpreadEnd(d, slots);
    forall i | 0 < i < |chain| ensures OffsetOf(a, o', chain[i]) == Spread(d, slots)[i] {
      assert chain[i] != chain[0];
      assert Spread(d, slots)[i] == slots[1..][i - 1].offset;
    }
    assert chain[0] in chain;
  }

  lemma SpreadEnd(d: Point, slots: seq<Slot>)
    requires slots != []
    ensures var end := ClampPoint(Plus(slots[0].offset, d), slots[0].max);
            Less(Plus(slots[0].offset, d), end) == ZERO || |slots| == 1 ==> Spread(d, slots) == [end] + ScrollMath.Offsets(slots[1..])
  {
    hide ClampPoint;
  }

  lemma ChainUnfold(a: Arena, root: NodeId, t: ScrollTarget)
    requires Tree(a, root)
    ensures t == Viewport ==> ChainFrom(a, root, t) == [Viewport]
    ensures t.OnNode? ==>
      && NextInChain(a, t).Some?
      && ChainFrom(a, root, t) == [t] + ChainFrom(a, root, Canonical(a, root, NextInChain(a, t).value))
  {
    hide Tree, Canonical;
    if t.OnNode? { ChainStep(a, root, t); }
  }

  lemma TailScrolled(a: Arena, l: Layout, hidden: bool, t: ScrollTarget, rest: seq<ScrollTarget>, d: Point, o: Offsets, o1: Offsets, o2: Offsets)
    requires t !in rest
    requires var s := SlotOf(a, o, l, hidden, t);
             var end := ClampPoint(Plus(s.offset, d), s.max);
             var left := Less(Plus(s.offset, d), end);
             Wrote(a, o, t, end, o1) && left != ZERO && Scrolled(a, l, hidden, rest, left, o1, o2)
    ensures Scrolled(a, l, hidden, [t] + rest, d, o, o2)
    ensures SomeMoved(a, [t] + rest, o, o2) <==> OffsetOf(a, o1, t) != OffsetOf(a, o, t) || SomeMoved(a, rest, o1, o2)
  {
    hide OffsetOf, SlotOf, ClampPoint, Spread, Plus, Less;
    var chain, s := [t] + rest, SlotOf(a, o, l, hidden, t);
    var slots := SlotsOf(a, o, l, hidden, chain);
    WroteAt(a, o, t, ClampPoint(Plus(s.offset, d), s.max), o1);
    SlotsAfter(a, o, l, hidden, t, rest, d, o1);
    assert slots[1..] == SlotsOf(a, o, l, hidden, rest);
    SpreadOn(d, slots);
    TailTogether(a, t, rest, o, o1, o2, Spread(d, slots)[1..]);
    forall i | 0 <= i < |chain| ensures OffsetOf(a, o2, chain[i]) == Spread(d, slots)[i] {
      if i > 0 { assert chain[i] == rest[i - 1] && Spread(d, slots)[i] == Spread(d, slots)[1..][i - 1]; }
    }
  }

  /** What the head wrote, the rest has left alone. */
  lemma TailTogether(a: Arena, t: ScrollTarget, rest: seq<ScrollTarget>, o: Offsets, o1: Offsets, o2: Offsets, after: seq<Point>)
    requires t !in rest && Wrote(a, o, t, OffsetOf(a, o1, t), o1) && |after| == |rest|
    requires forall i :: 0 <= i < |rest| ==> OffsetOf(a, o2, rest[i]) == after[i]
    requires forall u :: u !in rest ==> OffsetOf(a, o2, u) == OffsetOf(a, o1, u)
    ensures OffsetOf(a, o2, t) == OffsetOf(a, o1, t)
    ensures forall u :: u !in [t] + rest ==> OffsetOf(a, o2, u) == OffsetOf(a, o, u)
    ensures SomeMoved(a, [t] + rest, o, o2) <==> OffsetOf(a, o1, t) != OffsetOf(a, o, t) || SomeMoved(a, rest, o1, o2)
  {
    hide OffsetOf;
    assert t in [t] + rest && forall u :: u in [t] + rest <==> u == t || u in rest;
  }

  lemma SpreadOn(d: Point, slots: seq<Slot>)
    requires slots != []
    ensures var end := ClampPoint(Plus(slots[0].offset, d), slots[0].max);
            var left := Less(Plus(slots[0].offset, d), end);
            left != ZERO ==> Spread(d, slots) == [end] + Spread(left, slots[1..])
  {
    hide ClampPoint;
  }

  // ------------------------------------------------------------------ the methods

  // ------------------------------------------------------- the course of a scroll

  /** Whether a scroller, asked for `behavior`, animates its scroll. */
  predicate Animates(a: Arena, l: Layout, t: ScrollTarget, behavior: ScrollBehavior) {
    match behavior
    case Auto => ExtentOf(a, l, t).smooth
    case Instant => false
    case Smooth => true
  }

  /** The scrollers a scroll may move at once, and the one at which it turns into
      an animation. */
  datatype Course = Course(front: seq<ScrollTarget>, stop: Option<ScrollTarget>)

  ghost function CourseOf(a: Arena, root: NodeId, l: Layout, behavior: ScrollBehavior, overflow: ScrollOverflow, t: ScrollTarget): Course
    requires Tree(a, root)
    decreases ChainLeft(a, t)
  {
    if Animates(a, l, t, behavior) then Course([], Some(t))
    else if overflow == ClampOverflow || t == Viewport then Course([t], None)
    else
      ChainStep(a, root, t);
      var c := CourseOf(a, root, l, behavior, overflow, Canonical(a, root, NextInChain(a, t).value));
      Course([t] + c.front, c.stop)
  }

  /** The course follows the chain, up to the scroller that animates. */
  lemma {:induction false} CourseOnChain(a: Arena, root: NodeId, l: Layout, behavior: ScrollBehavior, overflow: ScrollOverflow, t: ScrollTarget)
    requires Tree(a, root)
    ensures var c, chain := CourseOf(a, root, l, behavior, overflow, t), ChainFrom(a, root, t);
            && |c.front| <= |chain| && c.front == chain[..|c.front|]
            && (c.stop.Some? ==> |c.front| < |chain| && c.stop.value == chain[|c.front|])
            && (c.stop == None && overflow == Chain ==> c.front == chain)
            && (forall i :: 0 <= i < |c.front| ==> !Animates(a, l, c.front[i], behavior))
            && (c.stop.Some? ==> Animates(a, l, c.stop.value, behavior))
    decreases ChainLeft(a, t)
  {
    hide Tree, Canonical, ExtentOf;
    ChainShape(a, root, t);
    ChainUnfold(a, root, t);
    if !Animates(a, l, t, behavior) && overflow == Chain && t.OnNode? {
      ChainStep(a, root, t);
      CourseOnChain(a, root, l, behavior, overflow, Canonical(a, root, NextInChain(a, t).value));
    }
  }

  /** The front has spread the delta; what it left starts an animation at the stop,
      if it left anything or there was no front. */
  ghost predicate Outcome(a: Arena, l: Layout, hidden: bool, c: Course, d: Point, o: Offsets, o': Offsets,
                          before: Animation, after: Animation, now: real, changed: bool)
  {
    var left := Remainder(d, SlotsOf(a, o, l, hidden, c.front));
    && Scrolled(a, l, hidden, c.front, d, o, o')
    && if c.stop.Some? && (c.front == [] || left != ZERO) then
         var s := SlotOf(a, o, l, hidden, c.stop.value);
         var end := ClampPoint(Plus(s.offset, left), s.max);
         && after == ScrollTo(c.stop.value, s.offset, end, now, SMOOTH_SCROLL_DURATION_MS)
         && (changed <==> SomeMoved(a, c.front, o, o') || end != s.offset)
       else after == before && (changed <==> SomeMoved(a, c.front, o, o'))
  }

  lemma OutcomeSmooth(a: Arena, root: NodeId, l: Layout, hidden: bool, behavior: ScrollBehavior, overflow: ScrollOverflow, t: ScrollTarget,
                      d: Point, o: Offsets, anim: Animation, now: real)
    requires Tree(a, root) && Animates(a, l, t, behavior)
    ensures var s := SlotOf(a, o, l, hidden, t);
            var end := ClampPoint(Plus(s.offset, d), s.max);
            Outcome(a, l, hidden, CourseOf(a, root, l, behavior, overflow, t), d, o, o, anim,
                    ScrollTo(t, OffsetOf(a, o, t), end, now, SMOOTH_SCROLL_DURATION_MS), now, end != s.offset)
  {
    hide Tree, OffsetOf, ClampPoint, Animates;
  }

  lemma OutcomeHere(a: Arena, root: NodeId, l: Layout, hidden: bool, behavior: ScrollBehavior, overflow: ScrollOverflow, t: ScrollTarget,
                    d: Point, o: Offsets, o': Offsets, anim: Animation, now: real)
    requires Tree(a, root) && !Animates(a, l, t, behavior)
    requires var s := SlotOf(a, o, l, hidden, t);
             var end := ClampPoint(Plus(s.offset, d), s.max);
             Wrote(a, o, t, end, o') && (Less(Plus(s.offset, d), end) == ZERO || overflow == ClampOverflow || t == Viewport)
    ensures Outcome(a, l, hidden, CourseOf(a, root, l, behavior, overflow, t), d, o, o', anim, anim, now, OffsetOf(a, o', t) != OffsetOf(a, o, t))
  {
    hide Tree, OffsetOf, ClampPoint, SlotOf, Scrolled, SomeMoved, Wrote, Animates, Canonical;
    var c := CourseOf(a, root, l, behavior, overflow, t);
    ChainShape(a, root, t);
    CourseOnChain(a, root, l, behavior, overflow, t);
    assert c.front != [] && c.front[0] == t;
    forall i, j | 0 <= i < j < |c.front| ensures c.front[i] != c.front[j] {
      assert ChainFrom(a, root, t)[i] != ChainFrom(a, root, t)[j];
    }
    HeadScrolled(a, l, hidden, c.front, d, o, o');
  }

  /** A scroller that does not animate goes first in its own course, and once. */
  lemma CourseStep(a: Arena, root: NodeId, l: Layout, behavior: ScrollBehavior, t: ScrollTarget)
    requires Tree(a, root) && !Animates(a, l, t, behavior) && t.OnNode?
    ensures NextInChain(a, t).Some?
    ensures var c := CourseOf(a, root, l, behavior, Chain, Canonical(a, root, NextInChain(a, t).value));
            CourseOf(a, root, l, behavior, Chain, t) == Course([t] + c.front, c.stop) && t !in c.front && c.stop != Some(t)
  {
    hide Tree, ChainFrom, Canonical, Animates;
    ChainStep(a, root, t);
    var c := CourseOf(a, root, l, behavior, Chain, Canonical(a, root, NextInChain(a, t).value));
    ChainShape(a, root, t);
    CourseOnChain(a, root, l, behavior, Chain, t);
    var chain, k := ChainFrom(a, root, t), |c.front|;
    forall i | 0 <= i < k ensures c.front[i] != t { assert ([t] + c.front)[i + 1] == c.front[i] == chain[i + 1]; }
    if c.stop.Some? { assert chain[k + 1] == c.stop.value != chain[0]; }
  }

  lemma OutcomeOn(a: Arena, root: NodeId, l: Layout, hidden: bool, behavior: ScrollBehavior, t: ScrollTarget,
                  d: Point, o: Offsets, o1: Offsets, o2: Offsets, before: Animation, after: Animation, now: real, further: bool)
    requires Tree(a, root) && !Animates(a, l, t, behavior) && t.OnNode?
    requires var s := SlotOf(a, o, l, hidden, t);
             var end := ClampPoint(Plus(s.offset, d), s.max);
             var left := Less(Plus(s.offset, d), end);
             && Wrote(a, o, t, end, o1) && left != ZERO
             && Outcome(a, l, hidden, CourseOf(a, root, l, behavior, Chain, Canonical(a, root, NextInChain(a, t).value)), left,
                        o1, o2, before, after, now, further)
    ensures Outcome(a, l, hidden, CourseOf(a, root, l, behavior, Chain, t), d, o, o2, before, after, now,
                    OffsetOf(a, o1, t) != OffsetOf(a, o, t) || further)
  {
    hide Tree, ChainFrom, OffsetOf, ClampPoint, Canonical, Scrolled, SomeMoved, Wrote, Animates, SlotOf, CourseOf;
    ChainStep(a, root, t);
    var c := CourseOf(a, root, l, behavior, Chain, Canonical(a, root, NextInChain(a, t).value));
    CourseStep(a, root, l, behavior, t);
    TailScrolled(a, l, hidden, t, c.front, d, o, o1, o2);
    WroteAt(a, o, t, ClampPoint(Plus(SlotOf(a, o, l, hidden, t).offset, d), SlotOf(a, o, l, hidden, t).max), o1);
    SlotsAfter(a, o, l, hidden, t, c.front, d, o1);
    if c.stop.Some? { SameSlot(a, o, l, hidden, t, c.stop.value, o1); }
  }

  lemma SameSlot(a: Arena, o: Offsets, l: Layout, hidden: bool, t: ScrollTarget, u: ScrollTarget, o1: Offsets)
    requires u != t && Wrote(a, o, t, OffsetOf(a, o1, t), o1)
    ensures SlotOf(a, o1, l, hidden, u) == SlotOf(a, o, l, hidden, u)
  {
    hide OffsetOf;
  }

  lemma SlotsAfter(a: Arena, o: Offsets, l: Layout, hidden: bool, t: ScrollTarget, rest: seq<ScrollTarget>, d: Point, o1: Offsets)
    requires t !in rest && Wrote(a, o, t, OffsetOf(a, o1, t), o1)
    ensures SlotsOf(a, o1, l, hidden, rest) == SlotsOf(a, o, l, hidden, rest)
    ensures var s := SlotOf(a, o, l, hidden, t);
            var left := Less(Plus(s.offset, d), ClampPoint(Plus(s.offset, d), s.max));
            left != ZERO ==> Remainder(d, SlotsOf(a, o, l, hidden, [t] + rest)) == Remainder(left, SlotsOf(a, o, l, hidden, rest))
  {
    hide OffsetOf, ClampPoint, SlotOf;
    forall i | 0 <= i < |rest| ensures SlotOf(a, o1, l, hidden, rest[i]) == SlotOf(a, o, l, hidden, rest[i]) { SameSlot(a, o, l, hidden, t, rest[i], o1); }
    var slots := SlotsOf(a, o, l, hidden, [t] + rest);
    assert slots[1..] == SlotsOf(a, o, l, hidden, rest);
  }

  /** A clamped scroll concerns one scroller. */
  lemma OutcomeOfOne(a: Arena, root: NodeId, l: Layout, hidden: bool, behavior: ScrollBehavior, t: ScrollTarget, d: Point, o: Offsets, o': Offsets,
                     before: Animation, after: Animation, now: real, changed: bool)
    requires Tree(a, root)
    requires Outcome(a, l, hidden, CourseOf(a, root, l, behavior, ClampOverflow, t), d, o, o', before, after, now, changed)
    ensures var s := SlotOf(a, o, l, hidden, t);
            var end := ClampPoint(Plus(s.offset, d), s.max);
            if Animates(a, l, t, behavior) then
              && (forall u :: OffsetOf(a, o', u) == OffsetOf(a, o, u))
              && after == ScrollTo(t, s.offset, end, now, SMOOTH_SCROLL_DURATION_MS) && (changed <==> end != s.offset)
            else Wrote(a, o, t, end, o') && after == before && (changed <==> end != s.offset)
  {
    hide Tree, OffsetOf, ClampPoint, Animates;
    var c := CourseOf(a, root, l, behavior, ClampOverflow, t);
    if c.front != [] {
      assert c.front == [t];
      SpreadEnd(d, SlotsOf(a, o, l, hidden, [t]));
    }
  }

  /** An instant scroll animates nothing. */
  /** A course in the layout's own terms: it goes along the scrollers that are reached,
      the first only for a clamped scroll, up to the first that is to scroll
      smoothly: each for a smooth scroll, none for an instant one, and those whose
      style says so otherwise. */
  ghost predicate CourseAlong(a: Arena, l: Layout, behavior: ScrollBehavior, overflow: ScrollOverflow, reached: seq<ScrollTarget>, c: Course) {
    var k, n := |c.front|, if overflow == Chain then |reached| else 1;
    && k <= n <= |reached| && c.front == reached[..k]
    && (forall i :: 0 <= i < k ==> !Smoothly(a, l, reached[i], behavior))
    && (if k < n then c.stop == Some(reached[k]) && Smoothly(a, l, reached[k], behavior) else c.stop == None)
  }

  ghost predicate Smoothly(a: Arena, l: Layout, t: ScrollTarget, behavior: ScrollBehavior) {
    || behavior == Smooth
    || (behavior == Auto && t == Viewport && l.viewport.smooth)
    || (behavior == Auto && t.OnNode? && t.id in a && t.id in l.nodes && l.nodes[t.id].smooth)
  }

  lemma CourseGoesAlong(a: Arena, root: NodeId, l: Layout, behavior: ScrollBehavior, overflow: ScrollOverflow, t: ScrollTarget)
    requires Tree(a, root)
    ensures CourseAlong(a, l, behavior, overflow, ChainFrom(a, root, t), CourseOf(a, root, l, behavior, overflow, t))
  {
    hide Tree, Canonical, ChainFrom, CourseOf, Animates, Smoothly;
    ChainShape(a, root, t);
    CourseOnChain(a, root, l, behavior, overflow, t);
    if overflow == ClampOverflow { ClampedCourse(a, root, l, behavior, t); }
    var c, reached := CourseOf(a, root, l, behavior, overflow, t), ChainFrom(a, root, t);
    forall i | 0 <= i < |c.front| ensures !Smoothly(a, l, reached[i], behavior) {
      AnimatesSmoothly(a, l, reached[i], behavior);
      assert c.front[i] == reached[i];
    }
    if c.stop.Some? { AnimatesSmoothly(a, l, c.stop.value, behavior); }
  }

  lemma ClampedCourse(a: Arena, root: NodeId, l: Layout, behavior: ScrollBehavior, t: ScrollTarget)
    requires Tree(a, root)
    ensures var c := CourseOf(a, root, l, behavior, ClampOverflow, t);
            |c.front| <= 1 && (c.stop == None ==> |c.front| == 1) && (c.stop.Some? ==> |c.front| == 0)
  {
    hide Tree;
  }

  lemma AnimatesSmoothly(a: Arena, l: Layout, t: ScrollTarget, behavior: ScrollBehavior)
    ensures Animates(a, l, t, behavior) <==> Smoothly(a, l, t, behavior)
  {
  }

  /** The course of a scroll at a target, canonical or not. */
  ghost predicate RightCourse(a: Arena, root: NodeId, l: Layout, behavior: ScrollBehavior, overflow: ScrollOverflow, t: ScrollTarget, c: Course) {
    exists reached ::
      && Reaches(a, root, if t.OnNode? then Some(t.id) else None, reached)
      && CourseAlong(a, l, behavior, overflow, reached, c)
  }

  lemma CourseRight(a: Arena, root: NodeId, l: Layout, behavior: ScrollBehavior, overflow: ScrollOverflow, t: ScrollTarget)
    requires Tree(a, root)
    ensures RightCourse(a, root, l, behavior, overflow, t, CourseOf(a, root, l, behavior, overflow, Canonical(a, root, t)))
  {
    hide Tree, Reaches, CourseAlong, ChainFrom, CourseOf, Canonical;
    AnchorReaches(a, root, if t.OnNode? then Some(t.id) else None);
    CourseGoesAlong(a, root, l, behavior, overflow, Canonical(a, root, t));
  }

  lemma InstantCourse(a: Arena, root: NodeId, l: Layout, overflow: ScrollOverflow, t: ScrollTarget)
    requires Tree(a, root)
    ensures CourseOf(a, root, l, Instant, overflow, t) == Course(if overflow == Chain then ChainFrom(a, root, t) else [t], None)
  {
    hide Tree;
    CourseOnChain(a, root, l, Instant, overflow, t);
  }

  class ScrollView {
    const doc: BaseDocument
    var offsets: map<NodeId, Point>
    var viewportScroll: Point
    var layout: Layout
    var animation: Animation

    ghost predicate Valid()
      reads this, doc
    {
      Tree(doc.nodes, doc.root) && ProperLayout(layout)
    }

    ghost function Standing(): Offsets
      reads this
    {
      Offsets(offsets, viewportScroll)
    }

    constructor (doc: BaseDocument, layout: Layout)
      requires doc.Valid() && ProperLayout(layout)
      ensures Valid() && this.doc == doc && this.layout == layout && animation == NoAnimation
    {
      this.doc, this.layout := doc, layout;
      offsets, viewportScroll, animation := map[], ZERO, NoAnimation;
    }

    function CanonicalScrollTarget(t: ScrollTarget): ScrollTarget
      reads this, doc
    {
      Canonical(doc.nodes, doc.root, t)
    }

    /** Current and maximal offset of a scroller. */
    function ScrollState(t: ScrollTarget, includeHidden: bool): Slot
      reads this, doc
    {
      SlotOf(doc.nodes, Offsets(offsets, viewportScroll), layout, includeHidden, CanonicalScrollTarget(t))
    }

    predicate ShouldScrollSmoothly(t: ScrollTarget, behavior: ScrollBehavior)
      reads this, doc
    {
      Animates(doc.nodes, layout, t, behavior)
    }

    /** Stores an offset; true if it differs from the former one. */
    method WriteScrollOffset(t: ScrollTarget, offset: Point) returns (changed: bool)
      modifies `offsets, `viewportScroll
      ensures var u := CanonicalScrollTarget(t);
              if u.OnNode? && u.id !in doc.nodes then !changed && Standing() == old(Standing())
              else
                && Wrote(doc.nodes, old(Standing()), u, offset, Standing())
                && (changed <==> offset != OffsetOf(doc.nodes, old(Standing()), u))
    {
      match CanonicalScrollTarget(t) {
        case Viewport =>
          var initial := viewportScroll;
          viewportScroll := offset;
          return offset != initial;
        case OnNode(x) =>
          if x !in doc.nodes { return false; }
          var initial := if x in offsets then offsets[x] else ZERO;
          offsets := offsets[x := offset];
          return offset != initial;
      }
    }

    method StartScrollAnimation(t: ScrollTarget, end: Point, now: real)
      requires t == CanonicalScrollTarget(t)
      modifies `animation
      ensures animation == ScrollTo(t, OffsetOf(doc.nodes, Standing(), t), end, now, SMOOTH_SCROLL_DURATION_MS)
    {
      hide Canonical, ExtentOf;
      animation := ScrollTo(t, ScrollState(t, true).offset, end, now, SMOOTH_SCROLL_DURATION_MS);
    }

    /** The delta a request asks of its (canonical) target. */
    ghost function Wanted(r: ScrollRequest): Point
      reads this, doc
    {
      var s := ScrollState(r.target, r.source == Programmatic);
      match r.amount
      case To(p) => Less(p, s.offset)
      case By(d) => d
    }

    lemma WantedIs(r: ScrollRequest, s: Slot)
      requires s == ScrollState(r.target, r.source == Programmatic)
      ensures Plus(s.offset, Wanted(r)) == Asked(r.amount, s.offset)
    {
      hide SlotOf, Canonical;
    }

    /** Moves a canonical scroller by d, as far as it goes; a freed one stays. */
    method WriteClamped(t: ScrollTarget, hidden: bool, ghost d: Point, end: Point) returns (changed: bool)
      requires t == CanonicalScrollTarget(t)
      requires var s := SlotOf(doc.nodes, Standing(), layout, hidden, t); end == ClampPoint(Plus(s.offset, d), s.max)
      modifies `offsets, `viewportScroll
      ensures Wrote(doc.nodes, old(Standing()), t, end, Standing())
      ensures changed <==> OffsetOf(doc.nodes, Standing(), t) != OffsetOf(doc.nodes, old(Standing()), t)
    {
      hide Canonical, ClampPoint, Wrote, SlotOf, OffsetOf, Plus;
      ghost var o := Standing();
      DeadStays(doc.nodes, o, layout, hidden, t, d);
      changed := WriteScrollOffset(t, end);
      WroteAt(doc.nodes, o, t, end, Standing());
    }

    /** The scrolling primitive. A smooth scroll only starts an animation; a clamped
        one moves one scroller; a chained one spreads over the whole chain. */
    method Scroll(r: ScrollRequest, now: real) returns (changed: bool)
      requires Valid()
      modifies `offsets, `viewportScroll, `animation
      ensures Outcome(doc.nodes, layout, r.source == Programmatic,
                      CourseOf(doc.nodes, doc.root, layout, r.behavior, r.overflow, old(CanonicalScrollTarget(r.target))), old(Wanted(r)),
                      old(Standing()), Standing(), Interrupted(old(animation), r.interruptAnimation), animation, now, changed)
      ensures RightCourse(doc.nodes, doc.root, layout, r.behavior, r.overflow, r.target,
                          CourseOf(doc.nodes, doc.root, layout, r.behavior, r.overflow, old(CanonicalScrollTarget(r.target))))
      decreases ChainLeft(doc.nodes, CanonicalScrollTarget(r.target))
    {
      hide Tree, Canonical, Scrolled, SomeMoved, ClampPoint, ChainFrom, Wrote, SlotOf, OffsetOf, CourseOf, Outcome, Animates,
           ExtentOf, Plus, Less, ProperLayout,
           Interrupted, ChainLeft, ClimbLeft, Asked, Interpolate;
      hide RightCourse;
      CourseRight(doc.nodes, doc.root, layout, r.behavior, r.overflow, r.target);
      ghost var anim := Interrupted(animation, r.interruptAnimation);
      Interrupts(animation, r.interruptAnimation);
      if r.interruptAnimation && animation.ScrollTo? {
        animation := NoAnimation;
      }
      ghost var o, d := Standing(), Wanted(r);
      var target := CanonicalScrollTarget(r.target);
      CanonicalTwice(doc.nodes, doc.root, r.target);
      var includeHidden := r.source == Programmatic;
      var state := ScrollState(target, includeHidden);
      var unclamped := Asked(r.amount, state.offset);
      var end := ClampPoint(unclamped, state.max);
      WantedIs(r, state);
      if ShouldScrollSmoothly(target, r.behavior) {
        StartScrollAnimation(target, end, now);
        OutcomeSmooth(doc.nodes, doc.root, layout, includeHidden, r.behavior, r.overflow, target, d, o, anim, now);
        return end != state.offset;
      }
      var hasChanged := WriteClamped(target, includeHidden, d, end);
      ghost var o1 := Standing();
      if r.overflow == Chain {
        var remainder := Less(unclamped, end);
        if remainder != ZERO {
          var next := NextInChain(doc.nodes, target);
          if next.Some? {
            ChainStep(doc.nodes, doc.root, target);
            var onwards := r.(target := next.value, amount := By(remainder));
            assert Wanted(onwards) == remainder && Interrupted(animation, r.interruptAnimation) == anim;
            var further := Scroll(onwards, now);
            OutcomeOn(doc.nodes, doc.root, layout, includeHidden, r.behavior, target, d, o, o1, Standing(), anim, animation, now, further);
            return hasChanged || further;
          }
        }
      }
      OutcomeHere(doc.nodes, doc.root, layout, includeHidden, r.behavior, r.overflow, target, d, o, o1, anim, now);
      return hasChanged;
    }

    /** scroll_chain_by: a user's scroll, from the anchor or the viewport outwards. */
    method ScrollChainBy(anchor: Option<NodeId>, x: real, y: real, now: real) returns (changed: bool)
      requires Valid()
      modifies `offsets, `viewportScroll, `animation
      ensures var t := old(CanonicalScrollTarget(if anchor.Some? then OnNode(anchor.value) else Viewport));
              var chain := ChainFrom(doc.nodes, doc.root, t);
              && Scrolled(doc.nodes, layout, false, chain, Point(-x, -y), old(Standing()), Standing())
              && (changed <==> SomeMoved(doc.nodes, chain, old(Standing()), Standing()))
              && Reaches(doc.nodes, doc.root, anchor, chain)
      ensures !animation.ScrollTo?
    {
      hide Reaches, RightCourse;
      AnchorReaches(doc.nodes, doc.root, anchor);
      hide Tree, Canonical, Scrolled, SomeMoved, ChainFrom, CourseOf;
      InstantCourse(doc.nodes, doc.root, layout, Chain, CanonicalScrollTarget(if anchor.Some? then OnNode(anchor.value) else Viewport));
      var target := if anchor.Some? then OnNode(anchor.value) else Viewport;
      changed := Scroll(ScrollRequest(target, By(Point(-x, -y)), Chain, User, Instant, true), now);
    }

    /** scroll_to and scroll_by: exactly one scroller, clamped. */
    method ScrollProgrammatically(n: NodeId, amount: ScrollAmount, behavior: ScrollBehavior, now: real)
      requires Valid()
      modifies `offsets, `viewportScroll, `animation
      ensures n !in doc.nodes ==> Standing() == old(Standing()) && animation == old(animation)
      ensures n in doc.nodes ==>
        var t := old(CanonicalScrollTarget(OnNode(n)));
        var s := old(ScrollState(OnNode(n), true));
        var end := ClampPoint(Asked(amount, s.offset), s.max);
        if Animates(doc.nodes, layout, t, behavior) then
          (forall u :: OffsetOf(doc.nodes, Standing(), u) == OffsetOf(doc.nodes, old(Standing()), u))
          && animation == ScrollTo(t, s.offset, end, now, SMOOTH_SCROLL_DURATION_MS)
        else
          Wrote(doc.nodes, old(Standing()), t, end, Standing()) && animation == Interrupted(old(animation), true)
    {
      hide Tree, Canonical, ClampPoint, CourseOf, Animates, Outcome, Wrote, SlotOf, OffsetOf;
      if n !in doc.nodes { return; }
      ghost var r, o := ScrollRequest(OnNode(n), amount, ClampOverflow, Programmatic, behavior, true), Standing();
      ghost var d, t := Wanted(r), CanonicalScrollTarget(OnNode(n));
      CanonicalTwice(doc.nodes, doc.root, OnNode(n));
      WantedIs(r, ScrollState(OnNode(n), true));
      var changed := Scroll(ScrollRequest(OnNode(n), amount, ClampOverflow, Programmatic, behavior, true), now);
      OutcomeOfOne(doc.nodes, doc.root, layout, true, behavior, t, d, o, Standing(), Interrupted(old(animation), true), animation, now, changed);
    }

    /** One frame of a smooth scroll; the frame that completes it lands on the end. */
    method ResolveScrollAnimation(now: real)
      requires Valid()
      modifies `offsets, `viewportScroll, `animation
      ensures !old(animation).ScrollTo? ==> Standing() == old(Standing()) && animation == old(animation)
      ensures old(animation).ScrollTo? ==>
        var anim := old(animation);
        var t := old(CanonicalScrollTarget(anim.target));
        && (t.Viewport? || t.id in doc.nodes ==> Wrote(doc.nodes, old(Standing()), t, OffsetAt(anim, now), Standing()))
        && (t.OnNode? && t.id !in doc.nodes ==> Standing() == old(Standing()))
        && (animation == NoAnimation <==> Progress(anim, now) >= 1.0)
        && (animation == NoAnimation || animation == anim)
    {
      hide Tree, Canonical, EaseInOutCubic, Interpolate;
      if !animation.ScrollTo? { return; }
      var anim := animation;
      var progress := Progress(anim, now);
      var eased := EaseInOutCubic(progress);
      var target := Point(Interpolate(anim.start.x, anim.end.x, eased), Interpolate(anim.start.y, anim.end.y, eased));
      var _ := WriteScrollOffset(anim.target, target);
      if progress >= 1.0 {
        animation := NoAnimation;
      }
    }
  }

  lemma ViewportSlot(a: Arena, o: Offsets, l: Layout, hidden: bool, o': Offsets)
    ensures SlotOf(a, o, l, hidden, Viewport).max == l.viewport.all && OffsetOf(a, o', Viewport) == o'.viewport
  {
  }

  lemma NodeSlot(a: Arena, o: Offsets, l: Layout, hidden: bool, x: NodeId)
    requires x in a && x in l.nodes
    ensures SlotOf(a, o, l, hidden, OnNode(x)).max == if hidden then l.nodes[x].all else l.nodes[x].user
  {
  }

  /** What a chained scroll by d means, all along the chain. */
  lemma ChainedScrollLaw(a: Arena, root: NodeId, l: Layout, hidden: bool, t: ScrollTarget, d: Point, o: Offsets, o': Offsets)
    requires Tree(a, root) && Scrolled(a, l, hidden, ChainFrom(a, root, t), d, o, o')
    requires forall u :: u in ChainFrom(a, root, t) ==> var s := SlotOf(a, o, l, hidden, u); InRange(s.offset, s.max)
    ensures var c := ChainFrom(a, root, t);
            var slots := SlotsOf(a, o, l, hidden, c);
            var before, after := Along(a, o, c), Along(a, o', c);
            && Plus(Moved(before, after), Remainder(d, slots)) == d
            && (forall i :: 0 <= i < |c| ==> InRange(after[i], slots[i].max))
            && InRange(o'.viewport, l.viewport.all)
            && (forall x :: OnNode(x) in c && x in a && x in l.nodes ==>
                  InRange(OffsetOf(a, o', OnNode(x)), if hidden then l.nodes[x].all else l.nodes[x].user))
            && (forall i, j :: 0 <= i < j < |c| && after[j].x != before[j].x ==> AtLimit(after[i].x, slots[i].max.x, d.x))
            && (forall i, j :: 0 <= i < j < |c| && after[j].y != before[j].y ==> AtLimit(after[i].y, slots[i].max.y, d.y))
  {
    hide Tree, ChainFrom, OffsetOf, ExtentOf, Spread, Remainder, Moved, AtLimit;
    var c := ChainFrom(a, root, t);
    var slots := SlotsOf(a, o, l, hidden, c);
    forall i | 0 <= i < |slots| ensures InRange(slots[i].offset, slots[i].max) { assert c[i] in c; }
    Conserved(d, slots);
    StaysInRange(d, slots);
    assert Along(a, o, c) == ScrollMath.Offsets(slots) && Along(a, o', c) == Spread(d, slots);
    ChainShape(a, root, t);
    assert Along(a, o', c)[|c| - 1] == OffsetOf(a, o', Viewport);
    assert OffsetOf(a, o', Viewport) == o'.viewport && slots[|c| - 1].max == l.viewport.all by { ViewportSlot(a, o, l, hidden, o'); }
    forall x | OnNode(x) in c && x in a && x in l.nodes
      ensures InRange(OffsetOf(a, o', OnNode(x)), if hidden then l.nodes[x].all else l.nodes[x].user)
    {
      var i :| 0 <= i < |c| && c[i] == OnNode(x);
      assert slots[i].max == if hidden then l.nodes[x].all else l.nodes[x].user by { NodeSlot(a, o, l, hidden, x); }
      assert Along(a, o', c)[i] == OffsetOf(a, o', OnNode(x));
    }
    forall j | 0 <= j < |c|
      ensures Along(a, o', c)[j].x != Along(a, o, c)[j].x ==> forall i :: 0 <= i < j ==> AtLimit(Along(a, o', c)[i].x, slots[i].max.x, d.x)
      ensures Along(a, o', c)[j].y != Along(a, o, c)[j].y ==> forall i :: 0 <= i < j ==> AtLimit(Along(a, o', c)[i].y, slots[i].max.y, d.y)
    {
      InnerFirst(d, slots, j);
    }
  }

  function Along(a: Arena, o: Offsets, chain: seq<ScrollTarget>): (r: seq<Point>)
    ensures |r| == |chain| && forall i :: 0 <= i < |chain| ==> r[i] == OffsetOf(a, o, chain[i])
  {
    seq(|chain|, i requires 0 <= i < |chain| => OffsetOf(a, o, chain[i]))
  }

  // ------------------------------------------------------------------ animation

  /** Normalised progress of an animation. */
  function Progress(anim: Animation, now: real): real
    requires anim.ScrollTo?
  {
    if anim.duration <= 0.0 then 1.0 else Clamp((now - anim.startTime) / anim.duration, 1.0)
  }

  /** The offset an animation writes at a time. */
  function OffsetAt(anim: Animation, now: real): Point
    requires anim.ScrollTo?
  {
    var eased := EaseInOutCubic(Progress(anim, now));
    Point(Interpolate(anim.start.x, anim.end.x, eased), Interpolate(anim.start.y, anim.end.y, eased))
  }

  lemma ProgressMonotone(anim: Animation, t: real, u: real)
    requires anim.ScrollTo? && t <= u
    ensures 0.0 <= Progress(anim, t) <= Progress(anim, u) <= 1.0
  {
    if anim.duration > 0.0 {
      Quotients(t - anim.startTime, u - anim.startTime, anim.duration);
    }
  }

  /** Progress is the share of the duration that has passed. */
  lemma ProgressShare(anim: Animation, k: real)
    requires anim.ScrollTo? && anim.duration > 0.0
    ensures Progress(anim, anim.startTime + k * anim.duration) == if k < 0.0 then 0.0 else if k > 1.0 then 1.0 else k
  {
    var passed := k * anim.duration;
    ProgressAfter(anim, passed);
    Share(k, anim.duration);
  }

  lemma ProgressAfter(anim: Animation, passed: real)
    requires anim.ScrollTo? && anim.duration > 0.0
    ensures Progress(anim, anim.startTime + passed) == Clamp(passed / anim.duration, 1.0)
  {
    assert anim.startTime + passed - anim.startTime == passed;
  }

  lemma Share(k: real, d: real)
    requires 0.0 < d
    ensures (k * d) / d == k
  {
    var q := (k * d) / d;
    assert q * d == k * d;
    if q < k { Steeper(d, q, k); } else if k < q { Steeper(d, k, q); }
  }

  lemma Steeper(k: real, d: real, e: real)
    requires 0.0 < k && d < e
    ensures k * d < k * e
  {
    var m := e - d;
    assert k * m > 0.0;
    assert k * m == k * e - k * d;
  }

  lemma Quotients(a: real, b: real, k: real)
    requires a <= b && 0.0 < k
    ensures a / k <= b / k
  {
    var p, q := a / k, b / k;
    assert p * k == a && q * k == b;
    if q < p {
      Steeper(k, q, p);
      assert false;
    }
  }

  /** As time passes the written offsets move from start towards end, never back
      and never beyond; the write of a finished animation is exactly its end. */
  lemma AnimationTowardEnd(anim: Animation, t: real, u: real)
    requires anim.ScrollTo? && t <= u
    ensures Toward(anim.start.x, anim.end.x, OffsetAt(anim, t).x, OffsetAt(anim, u).x)
    ensures Toward(anim.start.y, anim.end.y, OffsetAt(anim, t).y, OffsetAt(anim, u).y)
    ensures Progress(anim, u) >= 1.0 ==> OffsetAt(anim, u) == anim.end
    ensures anim.duration > 0.0 && t <= anim.startTime ==> OffsetAt(anim, t) == anim.start
  {
    hide EaseInOutCubic, Interpolate;
    ProgressMonotone(anim, t, u);
    EaseMonotone(Progress(anim, t), Progress(anim, u));
    var d, e := EaseInOutCubic(Progress(anim, t)), EaseInOutCubic(Progress(anim, u));
    InterpolateToward(anim.start.x, anim.end.x, d, e);
    InterpolateToward(anim.start.y, anim.end.y, d, e);
    Ends(anim.start.x, anim.end.x);
    Ends(anim.start.y, anim.end.y);
    if anim.duration > 0.0 && t <= anim.startTime { Quotients(t - anim.startTime, 0.0, anim.duration); }
  }

  lemma Ends(a: real, b: real)
    ensures Interpolate(a, b, 0.0) == a && Interpolate(a, b, 1.0) == b
  {
  }

  lemma WroteAt(a: Arena, o: Offsets, t: ScrollTarget, v: Point, o': Offsets)
    requires Wrote(a, o, t, v, o')
    ensures OffsetOf(a, o', t) == v
  {
  }

  lemma CanonicalTwice(a: Arena, root: NodeId, t: ScrollTarget)
    ensures Canonical(a, root, Canonical(a, root, t)) == Canonical(a, root, t)
  {
  }

  /** A freed scroller has no range: whatever it is asked, it stands at zero. */
  lemma DeadStays(a: Arena, o: Offsets, l: Layout, hidden: bool, t: ScrollTarget, d: Point)
    ensures var s := SlotOf(a, o, l, hidden, t);
            t.OnNode? && t.id !in a ==> ClampPoint(Plus(s.offset, d), s.max) == ZERO && Wrote(a, o, t, ZERO, o) && s.offset == ZERO
    ensures SlotOf(a, o, l, hidden, t).offset == OffsetOf(a, o, t)
  {
  }
}
