/** Cropping gestures over exact reals: zoom stays in range, the image always covers the frame, and each
    gesture keeps the point it is anchored to. */
module SlotGeometry {
  import opened Wrappers
  import opened Runs

  /** Zoom, and the image centre's offset from the frame centre in percent of the frame. */
  datatype View = View(s: real, x: real, y: real)

  /** Natural image size and frame size; absent while the image or the layout is not there. */
  datatype Geom = Geom(iw: real, ih: real, fw: real, fh: real)

  predicate Proper(g: Geom) {
    g.iw > 0.0 && g.ih > 0.0 && g.fw > 0.0 && g.fh > 0.0
  }

  const S_MAX := 5.0
  const FRESH := View(1.0, 0.0, 0.0)

  function Max(a: real, b: real): real { if a >= b then a else b }
  function Min(a: real, b: real): real { if a <= b then a else b }

  function ClampS(s: real): real { Max(1.0, Min(S_MAX, s)) }

  predicate InRange(v: View) { 1.0 <= v.s <= S_MAX }

  /** The scale at which the image just covers the frame. */
  function Base(g: Geom): real
    requires Proper(g)
  {
    Max(g.fw / g.iw, g.fh / g.ih)
  }

  /** The image's width and height as multiples of the frame's, at zoom 1. */
  function SpanX(g: Geom): real requires Proper(g) { g.iw * Base(g) / g.fw }
  function SpanY(g: Geom): real requires Proper(g) { g.ih * Base(g) / g.fh }

  lemma RatioUp(a: real, b: real, c: real)
    requires b > 0.0 && c > 0.0 && a >= c / b
    ensures b * a / c >= 1.0
  {
    assert b * (c / b) == c;
    assert b * (a - c / b) >= 0.0;
  }

  lemma BaseIsEnough(g: Geom)
    requires Proper(g)
    ensures Base(g) >= g.fw / g.iw && Base(g) >= g.fh / g.ih
  {
  }

  lemma SpansCover(g: Geom)
    requires Proper(g)
    ensures SpanX(g) >= 1.0 && SpanY(g) >= 1.0
  {
    BaseIsEnough(g);
    hide Base;
    RatioUp(Base(g), g.iw, g.fw);
    RatioUp(Base(g), g.ih, g.fh);
  }

  /** The frame lies within the image: both edges on each axis. */
  predicate Covers(g: Geom, v: View)
    requires Proper(g)
  {
    && 50.0 + v.x - 50.0 * (SpanX(g) * v.s) <= 0.0 && 50.0 + v.x + 50.0 * (SpanX(g) * v.s) >= 100.0
    && 50.0 + v.y - 50.0 * (SpanY(g) * v.s) <= 0.0 && 50.0 + v.y + 50.0 * (SpanY(g) * v.s) >= 100.0
  }

  function Within(bound: real, t: real): real { Max(-bound, Min(bound, t)) }

  /** `_clampView`; without a geometry it leaves the view alone. */
  function ClampView(geom: Option<Geom>, v: View): View
    requires geom.Some? ==> Proper(geom.value)
  {
    if geom.None? then v
    else
      var g := geom.value;
      v.(x := Within(Max(0.0, (SpanX(g) * v.s - 1.0) * 50.0), v.x),
         y := Within(Max(0.0, (SpanY(g) * v.s - 1.0) * 50.0), v.y))
  }

  lemma ZoomedSpan(span: real, s: real)
    requires span >= 1.0 && s >= 1.0
    ensures span * s >= 1.0
  {
    assert span * s >= span * 1.0;
  }

  /** Clamping makes a view cover the frame, and moves it only if it did not. */
  lemma ClampCovers(g: Geom, v: View)
    requires Proper(g) && InRange(v)
    ensures Covers(g, ClampView(Some(g), v))
    ensures ClampView(Some(g), v).s == v.s
    ensures ClampView(Some(g), v) == v <==> Covers(g, v)
  {
    SpansCover(g);
    ZoomedSpan(SpanX(g), v.s);
    ZoomedSpan(SpanY(g), v.s);
  }

  /** The offsets a crop may have, in percent of the frame: half of what the image sticks out. */
  predicate InBounds(g: Geom, v: View)
    requires Proper(g)
  {
    && -(50.0 * (SpanX(g) * v.s - 1.0)) <= v.x <= 50.0 * (SpanX(g) * v.s - 1.0)
    && -(50.0 * (SpanY(g) * v.s - 1.0)) <= v.y <= 50.0 * (SpanY(g) * v.s - 1.0)
  }

  lemma CoversInBounds(g: Geom, v: View)
    requires Proper(g)
    ensures Covers(g, v) <==> InBounds(g, v)
  {
    hide SpanX, SpanY;
  }

  /** The frames have one shape, and so have the images. */
  predicate SameShape(a: Geom, b: Geom) {
    a.fw * b.fh == b.fw * a.fh && a.iw * b.ih == b.iw * a.ih
  }

  lemma QuotientIs(n: real, d: real, q: real)
    requires d != 0.0 && q * d == n
    ensures n / d == q
  {
  }

  lemma SameQuotient(a: real, b: real, c: real, d: real)
    requires b > 0.0 && d > 0.0 && a * d == c * b
    ensures a / b == c / d
  {
    var p, q := a / b, c / d;
    assert p * b == a && q * d == c;
    assert (p - q) * (b * d) == (p * b) * d - (q * d) * b;
    assert b * d > 0.0;
  }

  lemma QuotientProduct(a: real, b: real, c: real, d: real)
    requires b > 0.0 && d > 0.0
    ensures b * d > 0.0 && (a / b) * (c / d) == (a * c) / (b * d)
  {
    var p, q := a / b, c / d;
    assert p * b == a && q * d == c;
    assert (p * q) * (b * d) == (p * b) * (q * d);
    QuotientIs(a * c, b * d, p * q);
  }

  lemma OverOne(i: real, m: real, f: real)
    requires i > 0.0 && f > 0.0
    ensures i / f > 0.0 && i * m / f == (i / f) * m
  {
    assert (i / f) * f == i;
    QuotientIs(i * m, f, (i / f) * m);
  }

  /** The span along an axis where the image is `i` and the frame `f` long, `j` and `h` across. */
  function Span(i: real, j: real, f: real, h: real): real
    requires i > 0.0 && j > 0.0 && f > 0.0 && h > 0.0
  {
    i * Max(f / i, h / j) / f
  }

  function Shapes(i: real, j: real, f: real, h: real): real
    requires i > 0.0 && j > 0.0 && f > 0.0 && h > 0.0
  {
    (i / j) * (h / f)
  }

  lemma TightAxis(i: real, f: real)
    requires i > 0.0 && f > 0.0
    ensures (i / f) * (f / i) == 1.0
  {
    QuotientProduct(i, f, f, i);
    QuotientIs(i * f, f * i, 1.0);
  }

  lemma LooseAxis(i: real, j: real, f: real, h: real)
    requires i > 0.0 && j > 0.0 && f > 0.0 && h > 0.0
    ensures (i / f) * (h / j) == Shapes(i, j, f, h)
  {
    QuotientProduct(i, f, h, j);
    QuotientProduct(i, j, h, f);
  }

  /** A span is 1 on the tight axis, and the ratio of the image's shape to the frame's on the other. */
  lemma SpanIsRatio(i: real, j: real, f: real, h: real)
    requires i > 0.0 && j > 0.0 && f > 0.0 && h > 0.0
    ensures Span(i, j, f, h) == Max(1.0, Shapes(i, j, f, h))
  {
    var t, a, b := i / f, f / i, h / j;
    OverOne(i, Max(a, b), f);
    TightAxis(i, f);
    LooseAxis(i, j, f, h);
    hide Shapes;
    assert t * a == 1.0 && t * b == Shapes(i, j, f, h);
    ScaleMax(t, a, b);
    MaxOf(t * a, 1.0, t * b, Shapes(i, j, f, h));
  }

  lemma MaxOf(a: real, a2: real, b: real, b2: real)
    requires a == a2 && b == b2
    ensures Max(a, b) == Max(a2, b2)
  {
  }

  lemma SameShapes(i: real, j: real, f: real, h: real, i2: real, j2: real, f2: real, h2: real)
    requires i > 0.0 && j > 0.0 && f > 0.0 && h > 0.0 && i2 > 0.0 && j2 > 0.0 && f2 > 0.0 && h2 > 0.0
    requires i * j2 == i2 * j && f * h2 == f2 * h
    ensures Shapes(i, j, f, h) == Shapes(i2, j2, f2, h2)
  {
    SameQuotient(i, j, i2, j2);
    SameQuotient(h, f, h2, f2);
  }

  lemma SpansAre(g: Geom)
    requires Proper(g)
    ensures SpanX(g) == Span(g.iw, g.ih, g.fw, g.fh) && SpanY(g) == Span(g.ih, g.iw, g.fh, g.fw)
  {
  }

  /** The spans depend only on the shapes of the image and of the frame. */
  lemma SameShapeSameSpans(a: Geom, b: Geom)
    requires Proper(a) && Proper(b) && SameShape(a, b)
    ensures SpanX(a) == SpanX(b) && SpanY(a) == SpanY(b)
  {
    SpansAre(a);
    SpansAre(b);
    hide SpanX, SpanY, Span, Shapes;
    SameSpan(a.iw, a.ih, a.fw, a.fh, b.iw, b.ih, b.fw, b.fh);
    SameSpan(a.ih, a.iw, a.fh, a.fw, b.ih, b.iw, b.fh, b.fw);
  }

  lemma SameSpan(i: real, j: real, f: real, h: real, i2: real, j2: real, f2: real, h2: real)
    requires i > 0.0 && j > 0.0 && f > 0.0 && h > 0.0 && i2 > 0.0 && j2 > 0.0 && f2 > 0.0 && h2 > 0.0
    requires i * j2 == i2 * j && f * h2 == f2 * h
    ensures Span(i, j, f, h) == Span(i2, j2, f2, h2)
  {
    SameShapes(i, j, f, h, i2, j2, f2, h2);
    SpanIsRatio(i, j, f, h);
    SpanIsRatio(i2, j2, f2, h2);
    hide Span, Shapes;
  }

  function ScaledFrame(g: Geom, t: real): Geom { Geom(g.iw, g.ih, t * g.fw, t * g.fh) }

  lemma Positive(a: real, b: real)
    requires a > 0.0 && b > 0.0
    ensures a * b > 0.0
  {
  }

  lemma ScaleMax(t: real, a: real, b: real)
    requires t > 0.0
    ensures Max(t * a, t * b) == t * Max(a, b)
  {
    if a >= b {
      Monotone(t, a, b);
    } else {
      Monotone(t, b, a);
    }
  }

  lemma Monotone(t: real, a: real, b: real)
    requires t > 0.0 && a >= b
    ensures t * a >= t * b
  {
  }

  /** A transform on an ancestor scales the frame's pixels but not the crop: measured in frame
      multiples the image is the same size. */
  lemma ScaledAncestor(g: Geom, t: real)
    requires Proper(g) && t > 0.0
    ensures Proper(ScaledFrame(g, t))
    ensures SpanX(ScaledFrame(g, t)) == SpanX(g) && SpanY(ScaledFrame(g, t)) == SpanY(g)
  {
    Positive(t, g.fw);
    Positive(t, g.fh);
    SameShapeSameSpans(ScaledFrame(g, t), g);
  }

  // ---- gestures ----

  /** Which corner is dragged: east or west, south or north. */
  datatype Corner = Corner(east: bool, south: bool)

  function SignX(c: Corner): real { if c.east then 1.0 else -1.0 }
  function SignY(c: Corner): real { if c.south then 1.0 else -1.0 }

  /** What pointer-down captures: the view and the frame and image sizes of that moment, and the
      diagonal of the image as it then lies on the screen. */
  datatype Grab = Grab(view: View, g: Geom, diagonal: real)

  function ImageW(g: Geom, s: real): real requires Proper(g) { g.iw * Base(g) * s }
  function ImageH(g: Geom, s: real): real requires Proper(g) { g.ih * Base(g) * s }

  predicate GrabOk(b: Grab) {
    && Proper(b.g) && InRange(b.view) && b.diagonal > 0.0
    && b.diagonal * b.diagonal == ImageW(b.g, b.view.s) * ImageW(b.g, b.view.s)
                                  + ImageH(b.g, b.view.s) * ImageH(b.g, b.view.s)
  }

  function CentreX(g: Geom, v: View): real { (50.0 + v.x) / 100.0 * g.fw }
  function CentreY(g: Geom, v: View): real { (50.0 + v.y) / 100.0 * g.fh }

  /** The corner diagonally opposite the dragged one. */
  function OppositeX(g: Geom, v: View, c: Corner): real requires Proper(g)
  {
    CentreX(g, v) - SignX(c) * ImageW(g, v.s) / 2.0
  }
  function OppositeY(g: Geom, v: View, c: Corner): real requires Proper(g)
  {
    CentreY(g, v) - SignY(c) * ImageH(g, v.s) / 2.0
  }

  /** The pointer's distance from the opposite corner along the image's diagonal. */
  function Projection(b: Grab, c: Corner, px: real, py: real): real
    requires GrabOk(b)
  {
    (px - OppositeX(b.g, b.view, c)) * (SignX(c) * ImageW(b.g, b.view.s) / b.diagonal)
    + (py - OppositeY(b.g, b.view, c)) * (SignY(c) * ImageH(b.g, b.view.s) / b.diagonal)
  }

  /** The zoom that makes the diagonal `p` long, when at zoom `s0` it is `diagonal` long. */
  function ZoomFor(s0: real, p: real, diagonal: real): real
    requires diagonal > 0.0
  {
    s0 * p / diagonal
  }

  /** The image's diagonal at zoom `s`, when at zoom `s0` it is `diagonal` long. */
  function DiagonalFor(diagonal: real, s0: real, s: real): real
    requires s0 > 0.0
  {
    diagonal * s / s0
  }

  function DiagonalAt(b: Grab, s: real): real
    requires GrabOk(b)
  {
    DiagonalFor(b.diagonal, b.view.s, s)
  }

  /** The zoom a drag asks for, before the limits. */
  function Asked(b: Grab, c: Corner, px: real, py: real): real
    requires GrabOk(b)
  {
    ZoomFor(b.view.s, Projection(b, c, px, py), b.diagonal)
  }

  /** One axis of a drag to zoom `s`: half the new diagonal, from the opposite corner, as an offset. */
  function MovedAxis(opposite: real, f: real, sign: real, w0: real, diagonal: real, s: real, s0: real): real
    requires f > 0.0 && diagonal > 0.0 && s0 > 0.0
  {
    (opposite + (sign * w0 / diagonal) * (diagonal * s / s0) / 2.0) / f * 100.0 - 50.0
  }

  function ResizedTo(b: Grab, c: Corner, s: real): View
    requires GrabOk(b)
  {
    View(s,
         MovedAxis(OppositeX(b.g, b.view, c), b.g.fw, SignX(c), ImageW(b.g, b.view.s), b.diagonal, s, b.view.s),
         MovedAxis(OppositeY(b.g, b.view, c), b.g.fh, SignY(c), ImageH(b.g, b.view.s), b.diagonal, s, b.view.s))
  }

  /** A corner drag to pointer position (`px`, `py`), before clamping. */
  function Resized(b: Grab, c: Corner, px: real, py: real): View
    requires GrabOk(b)
  {
    ResizedTo(b, c, ClampS(Asked(b, c, px, py)))
  }

  /** Along one axis: a step of `u = sign * w0 / diagonal` times `diagonal * s / s0` is the new size. */
  lemma AlongDiagonal(sign: real, w0: real, diagonal: real, s: real, s0: real, unit: real)
    requires diagonal > 0.0 && s0 > 0.0 && w0 == unit * s0
    ensures (sign * w0 / diagonal) * (diagonal * s / s0) / 2.0 == sign * (unit * s) / 2.0
  {
    var p, q := sign * w0 / diagonal, diagonal * s / s0;
    assert p * diagonal == sign * w0;
    assert q * s0 == diagonal * s;
    assert (p * q) * (diagonal * s0) == (p * diagonal) * (q * s0);
    assert (p * diagonal) * (q * s0) == (sign * unit * s) * (diagonal * s0);
    assert diagonal * s0 > 0.0;
    CancelRight(p * q, sign * unit * s, diagonal * s0);
  }

  lemma CancelRight(a: real, b: real, c: real)
    requires c > 0.0 && a * c == b * c
    ensures a == b
  {
  }

  lemma CentreAfter(f: real, at: real)
    requires f > 0.0
    ensures (50.0 + (at / f * 100.0 - 50.0)) / 100.0 * f == at
  {
    var r := at / f;
    assert r * f == at;
  }

  /** One axis of a corner drag: the far edge stays at `opposite`. */
  lemma AxisIsAnchored(opposite: real, f: real, sign: real, w0: real, diagonal: real, s: real, s0: real, unit: real)
    requires f > 0.0 && diagonal > 0.0 && s0 > 0.0 && w0 == unit * s0
    ensures (50.0 + MovedAxis(opposite, f, sign, w0, diagonal, s, s0)) / 100.0 * f - sign * (unit * s) / 2.0 == opposite
  {
    CentreAfter(f, opposite + (sign * w0 / diagonal) * (diagonal * s / s0) / 2.0);
    AlongDiagonal(sign, w0, diagonal, s, s0, unit);
  }

  lemma AnchoredAt(b: Grab, c: Corner, s: real)
    requires GrabOk(b)
    ensures OppositeX(b.g, ResizedTo(b, c, s), c) == OppositeX(b.g, b.view, c)
    ensures OppositeY(b.g, ResizedTo(b, c, s), c) == OppositeY(b.g, b.view, c)
  {
    hide MovedAxis, Base, SignX, SignY;
    AxisIsAnchored(OppositeX(b.g, b.view, c), b.g.fw, SignX(c), ImageW(b.g, b.view.s), b.diagonal,
                   s, b.view.s, b.g.iw * Base(b.g));
    AxisIsAnchored(OppositeY(b.g, b.view, c), b.g.fh, SignY(c), ImageH(b.g, b.view.s), b.diagonal,
                   s, b.view.s, b.g.ih * Base(b.g));
  }

  /** Dragging a corner leaves the opposite corner where it was on the screen. */
  lemma ResizeFixesOppositeCorner(b: Grab, c: Corner, px: real, py: real)
    requires GrabOk(b)
    ensures OppositeX(b.g, Resized(b, c, px, py), c) == OppositeX(b.g, b.view, c)
    ensures OppositeY(b.g, Resized(b, c, px, py), c) == OppositeY(b.g, b.view, c)
  {
    AnchoredAt(b, c, ClampS(Asked(b, c, px, py)));
  }

  /** Unless the zoom limits bite, the image's diagonal is as long as the pointer's distance along it:
      the dragged corner follows the pointer. */
  lemma CornerFollowsPointer(b: Grab, c: Corner, px: real, py: real)
    requires GrabOk(b) && 1.0 <= Asked(b, c, px, py) <= 5.0
    ensures DiagonalAt(b, Resized(b, c, px, py).s) == Projection(b, c, px, py)
  {
    assert b.diagonal > 0.0 && b.view.s > 0.0;
    assert DiagonalAt(b, Resized(b, c, px, py).s) == DiagonalFor(b.diagonal, b.view.s, Resized(b, c, px, py).s);
    ResizedZoom(b, c, px, py);
    hide *;
    UnclampedDiagonal(b.diagonal, b.view.s, Projection(b, c, px, py));
  }

  lemma ResizedZoom(b: Grab, c: Corner, px: real, py: real)
    requires GrabOk(b)
    ensures Asked(b, c, px, py) == ZoomFor(b.view.s, Projection(b, c, px, py), b.diagonal)
    ensures Resized(b, c, px, py).s == ClampS(ZoomFor(b.view.s, Projection(b, c, px, py), b.diagonal))
  {
    hide Projection, ZoomFor, MovedAxis, ClampS;
  }

  lemma UnclampedDiagonal(diagonal: real, s0: real, p: real)
    requires diagonal > 0.0 && s0 > 0.0 && 1.0 <= ZoomFor(s0, p, diagonal) <= 5.0
    ensures DiagonalFor(diagonal, s0, ClampS(ZoomFor(s0, p, diagonal))) == p
  {
    var s := ZoomFor(s0, p, diagonal);
    assert s * diagonal == s0 * p;
    QuotientIs(diagonal * s, s0, p);
  }

  /** A wheel step toward the cursor at (`cx`, `cy`), in percent from the frame centre; `factor` is the
      positive zoom factor of the wheel delta. None when the zoom does not change. */
  function Zoomed(v: View, cx: real, cy: real, factor: real): Option<View>
    requires v.s > 0.0
  {
    var next := ClampS(v.s * factor);
    if next == v.s then None
    else
      var k := next / v.s;
      Some(View(next, Toward(cx, v.x, k), Toward(cy, v.y, k)))
  }

  /** The offset that zooming by `k` toward `c` gives. */
  function Toward(c: real, offset: real, k: real): real {
    c * (1.0 - k) + offset * k
  }

  /** The image point at frame position `c`, in zoom-independent units from the image centre. */
  function PointAt(c: real, offset: real, s: real): real
    requires s > 0.0
  {
    (c - offset) / s
  }

  lemma ZoomedOffset(c: real, x: real, s: real, next: real)
    requires s > 0.0 && next > 0.0
    ensures PointAt(c, Toward(c, x, next / s), next) == PointAt(c, x, s)
  {
    var k, p := next / s, (c - x) / s;
    assert k * s == next;
    assert p * s == c - x;
    assert c - (c * (1.0 - k) + x * k) == k * (c - x);
    assert k * (c - x) == k * (p * s);
    assert k * (p * s) == p * next;
    QuotientIs(p * next, next, p);
  }

  /** The image point under the cursor stays under the cursor. */
  lemma WheelFixesCursor(v: View, cx: real, cy: real, factor: real)
    requires InRange(v) && Zoomed(v, cx, cy, factor).Some?
    ensures var after := Zoomed(v, cx, cy, factor).value;
            && InRange(after)
            && PointAt(cx, after.x, after.s) == PointAt(cx, v.x, v.s)
            && PointAt(cy, after.y, after.s) == PointAt(cy, v.y, v.s)
  {
    var next := ClampS(v.s * factor);
    ZoomedOffset(cx, v.x, v.s, next);
    ZoomedOffset(cy, v.y, v.s, next);
  }

  // ---- the element ----

  /** The element's view, the drag under way, whether it is being reframed and whether it shows an image. */
  datatype Element = Element(view: View, grab: Option<Grab>, reframing: bool, shown: bool)

  datatype Gesture =
    | Enter
    | Exit
    | Down(g: Geom, diagonal: real)
    | Pan(dx: real, dy: real)
    | Drag(corner: Corner, px: real, py: real)
    | Up
    | Wheel(cx: real, cy: real, factor: real)
    | Render(stored: Option<View>, shows: bool)
    | Load    // the image's own load event

  function OnWheel(v: View, geom: Option<Geom>, t: Gesture): View
    requires t.Wheel? && InRange(v) && (geom.Some? ==> Proper(geom.value))
  {
    var z := Zoomed(v, t.cx, t.cy, t.factor);
    if z.None? then v else ClampView(geom, z.value)
  }

  /** The view a render starts from: the stored one, but never over a crop being made. */
  function Seeded(e: Element, stored: Option<View>): View {
    if e.reframing then e.view
    else if stored.Some? then stored.value.(s := ClampS(stored.value.s)) else FRESH
  }

  /** One event with the geometry of that moment. Pointer-down measures proper sizes and their true
      diagonal; other measurements do not occur. */
  function After(e: Element, geom: Option<Geom>, t: Gesture): Element
    requires ElementOk(e) && (geom.Some? ==> Proper(geom.value))
  {
    match t
    case Enter => e.(reframing := true)
    case Exit => e.(reframing := false, grab := None)
    case Down(g, diagonal) =>
      if e.reframing && GrabOk(Grab(e.view, g, diagonal)) then e.(grab := Some(Grab(e.view, g, diagonal))) else e
    case Pan(dx, dy) =>
      if e.grab.None? then e
      else
        var b := e.grab.value;
        e.(view := ClampView(geom, View(e.view.s, b.view.x + dx / b.g.fw * 100.0, b.view.y + dy / b.g.fh * 100.0)))
    case Drag(corner, px, py) =>
      if e.grab.None? then e else e.(view := ClampView(geom, Resized(e.grab.value, corner, px, py)))
    case Up => e.(grab := None)
    case Wheel(_, _, _) => if e.reframing then e.(view := OnWheel(e.view, geom, t)) else e
    case Render(stored, shows) =>
      e.(view := if shows then ClampView(geom, Seeded(e, stored)) else Seeded(e, stored), shown := shows)
    case Load => e
  }

  predicate ElementOk(e: Element) {
    InRange(e.view) && (e.grab.Some? ==> e.reframing && GrabOk(e.grab.value))
  }

  const NEW_ELEMENT := Element(FRESH, None, false, false)

  /** A render that shows an image leaves it covering the frame, and so does any event of a shown image
      that moves the view; the zoom stays between 1 and 5. */
  lemma GestureCovers(e: Element, geom: Option<Geom>, t: Gesture)
    requires ElementOk(e) && (geom.Some? ==> Proper(geom.value))
    ensures ElementOk(After(e, geom, t))
    ensures geom.Some? && After(e, geom, t).shown && (After(e, geom, t).view != e.view || t.Render?) ==>
              Covers(geom.value, After(e, geom, t).view)
  {
    if geom.Some? {
      var g := geom.value;
      match t
      case Pan(dx, dy) =>
        if e.grab.Some? {
          var b := e.grab.value;
          ClampCovers(g, View(e.view.s, b.view.x + dx / b.g.fw * 100.0, b.view.y + dy / b.g.fh * 100.0));
        }
      case Drag(corner, px, py) =>
        if e.grab.Some? { ClampCovers(g, Resized(e.grab.value, corner, px, py)); }
      case Wheel(cx, cy, factor) =>
        if Zoomed(e.view, cx, cy, factor).Some? { ClampCovers(g, Zoomed(e.view, cx, cy, factor).value); }
      case Render(stored, shows) => ClampCovers(g, Seeded(e, stored));
      case _ =>
    }
  }

  /** A drag by (`dx`, `dy`) pixels from where it began moves the image's centre by exactly that, unless
      the bounds stop it, and leaves the zoom alone. */
  lemma PanFollowsPointer(e: Element, geom: Option<Geom>, dx: real, dy: real)
    requires ElementOk(e) && e.grab.Some? && (geom.Some? ==> Proper(geom.value))
    ensures var b := e.grab.value;
            var after := After(e, geom, Pan(dx, dy));
            var asked := View(e.view.s, b.view.x + dx / b.g.fw * 100.0, b.view.y + dy / b.g.fh * 100.0);
            && after == e.(view := after.view) && after.view.s == e.view.s
            && CentreX(b.g, asked) == CentreX(b.g, b.view) + dx && CentreY(b.g, asked) == CentreY(b.g, b.view) + dy
            && (geom.None? || Covers(geom.value, asked) ==> after.view == asked)
  {
    var b := e.grab.value;
    var asked := View(e.view.s, b.view.x + dx / b.g.fw * 100.0, b.view.y + dy / b.g.fh * 100.0);
    ShiftedCentre(b.g.fw, b.view.x, dx);
    ShiftedCentre(b.g.fh, b.view.y, dy);
    if geom.Some? { ClampCovers(geom.value, asked); }
    hide Covers, ClampView;
  }

  /** In a corner drag the dragged corner follows the pointer as far as the zoom limits let it, and the
      opposite one stays where it was when the drag began, unless the bounds stop it. */
  lemma DragFollowsPointer(e: Element, geom: Option<Geom>, c: Corner, px: real, py: real)
    requires ElementOk(e) && e.grab.Some? && (geom.Some? ==> Proper(geom.value))
    ensures var b := e.grab.value;
            var after := After(e, geom, Drag(c, px, py));
            && after == e.(view := after.view)
            && (1.0 <= Asked(b, c, px, py) <= 5.0 ==> DiagonalAt(b, after.view.s) == Projection(b, c, px, py))
            && (WithinBounds(geom, Some(Resized(b, c, px, py))) ==>
                  && OppositeX(b.g, after.view, c) == OppositeX(b.g, b.view, c)
                  && OppositeY(b.g, after.view, c) == OppositeY(b.g, b.view, c))
  {
    var b := e.grab.value;
    ClampKeepsZoom(geom, Resized(b, c, px, py));
    if geom.Some? { ClampCovers(geom.value, Resized(b, c, px, py)); }
    ResizeFixesOppositeCorner(b, c, px, py);
    if 1.0 <= Asked(b, c, px, py) <= 5.0 { CornerFollowsPointer(b, c, px, py); }
    hide Covers, ClampView, Resized, Projection, OppositeX, OppositeY, Asked, DiagonalAt;
  }

  /** While reframing, a wheel step zooms by its factor, as far as 1 to 5 allow, and keeps the image point
      under the cursor unless the bounds stop it; otherwise the wheel does nothing. */
  lemma WheelZooms(e: Element, geom: Option<Geom>, cx: real, cy: real, factor: real)
    requires ElementOk(e) && (geom.Some? ==> Proper(geom.value))
    ensures var after := After(e, geom, Wheel(cx, cy, factor));
            && after == e.(view := after.view)
            && (!e.reframing ==> after == e)
            && (e.reframing ==>
                  after.view.s == ZoomedBy(e.view.s, factor))
            && (e.reframing && WithinBounds(geom, Zoomed(e.view, cx, cy, factor)) ==>
                  PointAt(cx, after.view.x, after.view.s) == PointAt(cx, e.view.x, e.view.s)
                  && PointAt(cy, after.view.y, after.view.s) == PointAt(cy, e.view.y, e.view.s))
  {
    var zoomed := Zoomed(e.view, cx, cy, factor);
    ZoomedZoom(e.view, cx, cy, factor);
    if zoomed.Some? {
      WheelFixesCursor(e.view, cx, cy, factor);
      ClampKeepsZoom(geom, zoomed.value);
      if geom.Some? { ClampCovers(geom.value, zoomed.value); }
    }
    hide ClampView, PointAt, Zoomed, Covers, ZoomedBy;
  }

  function Limited(s: real): real { if s < 1.0 then 1.0 else if s > 5.0 then 5.0 else s }

  function ZoomedBy(s: real, factor: real): real { Limited(s * factor) }

  lemma ProductLimited(s: real, factor: real, p: real)
    requires p == s * factor
    ensures ZoomedBy(s, factor) == Limited(p)
  {
    if p < 1.0 { assert s * factor < 1.0; } else if p > 5.0 { assert s * factor > 5.0; }
  }

  lemma LimitIsClamp(s: real)
    ensures Limited(s) == ClampS(s)
  {
  }

  predicate WithinBounds(geom: Option<Geom>, v: Option<View>)
    requires geom.Some? ==> Proper(geom.value)
  {
    geom.Some? && v.Some? ==> Covers(geom.value, v.value)
  }

  lemma ZoomedZoom(v: View, cx: real, cy: real, factor: real)
    requires InRange(v)
    ensures var zoomed := Zoomed(v, cx, cy, factor);
            ZoomedBy(v.s, factor) == if zoomed.Some? then zoomed.value.s else v.s
  {
    var product := v.s * factor;
    LimitIsClamp(product);
    hide Toward;
    ProductLimited(v.s, factor, product);
    assert Zoomed(v, cx, cy, factor).Some? ==> Zoomed(v, cx, cy, factor).value.s == ClampS(product);
    assert Zoomed(v, cx, cy, factor).None? ==> v.s == ClampS(product);
  }

  lemma ClampKeepsZoom(geom: Option<Geom>, v: View)
    requires geom.Some? ==> Proper(geom.value)
    ensures ClampView(geom, v).s == v.s && (geom.None? ==> ClampView(geom, v) == v)
  {
  }

  /** Reframing starts and ends, drags start from the view of that moment and only while reframing, and a
      render outside reframing shows the stored crop, its zoom within 1 to 5, or a fresh one. */
  lemma ModesLeave(e: Element, geom: Option<Geom>, t: Gesture)
    requires ElementOk(e) && (geom.Some? ==> Proper(geom.value))
    ensures var after := After(e, geom, t);
            match t
            case Enter => after.reframing && after.view == e.view && after.grab == e.grab && after.shown == e.shown
            case Exit => !after.reframing && after.grab == None && after.view == e.view && after.shown == e.shown
            case Up => after.grab == None && after.reframing == e.reframing && after.view == e.view && after.shown == e.shown
            case Down(g, diagonal) =>
              && after.view == e.view && after.reframing == e.reframing && after.shown == e.shown
              && (e.reframing && GrabOk(Grab(e.view, g, diagonal)) ==> after.grab == Some(Grab(e.view, g, diagonal)))
              && (!e.reframing ==> after.grab == e.grab)
            case Render(stored, shows) =>
              && after.shown == shows && after.reframing == e.reframing && after.grab == e.grab
              && (e.reframing && !shows ==> after.view == e.view)
              && (!e.reframing && stored.None? && !shows ==> after.view == View(1.0, 0.0, 0.0))
              && (!e.reframing && stored.Some? && !shows ==>
                    after.view.x == stored.value.x && after.view.y == stored.value.y)
              && (!e.reframing && stored.Some? ==>
                    after.view.s == Limited(stored.value.s))
              && (e.reframing ==> after.view.s == e.view.s)
              && (shows && geom.Some? && e.reframing && Covers(geom.value, e.view) ==> after.view == e.view)
            case Load => after == e
            case _ => after.reframing == e.reframing && after.shown == e.shown && after.grab == e.grab
  {
    if geom.Some? && t.Render? { ClampCovers(geom.value, Seeded(e, t.stored)); }
    hide Covers;
  }

  lemma ShiftedCentre(f: real, at: real, shift: real)
    requires f > 0.0
    ensures (50.0 + (at + shift / f * 100.0)) / 100.0 * f == (50.0 + at) / 100.0 * f + shift
  {
    var r := shift / f;
    assert r * f == shift;
  }

  // ---- runs ----

  /** An event and the geometry it meets. */
  datatype Moment = Moment(geom: Option<Geom>, gesture: Gesture)

  predicate Sized(m: Moment) { m.geom.Some? ==> Proper(m.geom.value) }

  ghost function Step(): (Element, Moment) -> Element {
    (e, m) => if ElementOk(e) && Sized(m) then After(e, m.geom, m.gesture) else e
  }

  ghost function Seen(ms: seq<Moment>): Element { Fold(Step(), NEW_ELEMENT, ms) }

  /** Whenever the geometry changes and no render follows at once, as at the image's load event, the crop
      of that moment is within the bounds of the new one. */
  ghost predicate Kept(ms: seq<Moment>) {
    && (forall i :: 0 <= i < |ms| ==> Sized(ms[i]))
    && (forall i :: 0 < i < |ms| ==>
          ms[i].geom == ms[i - 1].geom || ms[i].gesture.Render? || Fits(ms[i].geom, Seen(ms[..i])))
  }

  predicate Fits(geom: Option<Geom>, e: Element)
    requires geom.Some? ==> Proper(geom.value)
  {
    geom.Some? && e.shown ==> InBounds(geom.value, e.view)
  }

  predicate Covered(geom: Option<Geom>, e: Element)
    requires geom.Some? ==> Proper(geom.value)
  {
    geom.Some? && e.shown ==> Covers(geom.value, e.view)
  }

  /** After any sequence of pans, corner drags, wheel zooms, starts and ends of reframing, re-renders and
      loads the zoom is between 1 and 5 and a shown image covers the whole frame, if every change of the
      geometry came with a render, as the resize observer sees to for the frame, or found the crop within
      its bounds. */
  lemma {:induction false} AlwaysCovers(ms: seq<Moment>)
    requires Kept(ms)
    ensures InRange(Seen(ms).view) && ElementOk(Seen(ms))
    ensures ms != [] ==> Covered(ms[|ms| - 1].geom, Seen(ms))
  {
    if ms != [] {
      var n := |ms| - 1;
      KeptBefore(ms);
      AlwaysCovers(ms[..n]);
      hide Covered, After, Kept, Fits, Proper;
      StepCovers(Seen(ms[..n]), if n > 0 then Some(ms[n - 1].geom) else None, ms[n]);
    }
  }

  lemma KeptBefore(ms: seq<Moment>)
    requires Kept(ms) && ms != []
    ensures Kept(ms[..|ms| - 1]) && Sized(ms[|ms| - 1])
    ensures |ms| > 1 ==> ms[|ms| - 2].geom == ms[|ms| - 1].geom || ms[|ms| - 1].gesture.Render?
                         || Fits(ms[|ms| - 1].geom, Seen(ms[..|ms| - 1]))
  {
    var n := |ms| - 1;
    hide Fits, Seen;
    forall i | 0 < i < n
      ensures ms[..n][i].geom == ms[..n][i - 1].geom || ms[..n][i].gesture.Render?
              || Fits(ms[..n][i].geom, Seen(ms[..n][..i]))
    {
      assert ms[..n][..i] == ms[..i];
    }
  }

  lemma StepCovers(e: Element, before: Option<Option<Geom>>, m: Moment)
    requires ElementOk(e) && Sized(m) && (before.None? ==> !e.shown)
    requires before.Some? ==> (before.value.Some? ==> Proper(before.value.value)) && Covered(before.value, e)
    requires before == Some(m.geom) || m.gesture.Render? || before.None? || Fits(m.geom, e)
    ensures ElementOk(After(e, m.geom, m.gesture)) && Covered(m.geom, After(e, m.geom, m.gesture))
  {
    GestureCovers(e, m.geom, m.gesture);
    if m.geom.Some? { CoversInBounds(m.geom.value, e.view); }
    hide Covers, InBounds;
  }

  /** The load event positions the image without clamping. At the end of any run, the image then covers
      the frame if and only if the offsets of its crop are within the bounds of the geometry loaded. */
  lemma FirstSight(ms: seq<Moment>, g: Geom)
    requires Proper(g) && Seen(ms).shown
    ensures var seen := Seen(ms + [Moment(Some(g), Load)]);
            seen == Seen(ms) && (Covers(g, seen.view) <==> InBounds(g, seen.view))
  {
    assert (ms + [Moment(Some(g), Load)])[..|ms|] == ms;
    CoversInBounds(g, Seen(ms).view);
  }

  /** What follows a load: events at the same geometry, none of them a render. */
  ghost predicate Unrendered(ms: seq<Moment>, g: Geom) {
    forall i :: 0 <= i < |ms| ==> ms[i].geom == Some(g) && !ms[i].gesture.Render?
  }

  lemma StaysShown(e: Element, m: Moment)
    requires ElementOk(e) && Sized(m) && !m.gesture.Render?
    ensures After(e, m.geom, m.gesture).shown == e.shown
  {
  }

  /** After such a load the image covers the frame if and only if the crop was within bounds or has moved
      since: whatever is done before the next render, an uncovered frame is covered by the first movement
      and by nothing else. */
  lemma {:induction false} BareUntilMoved(ms: seq<Moment>, g: Geom, more: seq<Moment>)
    requires Proper(g) && Seen(ms).shown && Unrendered(more, g)
    ensures var seen := Seen(ms + [Moment(Some(g), Load)] + more);
            && seen.shown
            && (Covers(g, seen.view) <==> InBounds(g, Seen(ms).view) || seen.view != Seen(ms).view)
  {
    var loaded := ms + [Moment(Some(g), Load)];
    if more == [] {
      FirstSight(ms, g);
      assert loaded + more == loaded;
    } else {
      var n := |more| - 1;
      BareUntilMoved(ms, g, more[..n]);
      ZoomStaysInRange(NEW_ELEMENT, loaded + more[..n]);
      assert (loaded + more)[..|loaded| + n] == loaded + more[..n];
      assert (loaded + more)[|loaded| + n] == more[n];
      var before := Seen(loaded + more[..n]);
      CoversInBounds(g, before.view);
      CoversInBounds(g, Seen(ms).view);
      hide Covers, InBounds, After;
      MovedCovers(before, g, more[n]);
    }
  }

  lemma MovedCovers(e: Element, g: Geom, m: Moment)
    requires ElementOk(e) && Proper(g) && e.shown && m.geom == Some(g) && !m.gesture.Render?
    ensures After(e, Some(g), m.gesture).shown
    ensures After(e, Some(g), m.gesture).view != e.view ==> Covers(g, After(e, Some(g), m.gesture).view)
  {
    GestureCovers(e, Some(g), m.gesture);
    StaysShown(e, m);
    hide Covers;
  }

  /** A crop clamped in one frame covers every frame of the same shape, whatever its size, as soon as the
      image is loaded there. */
  lemma SameShapeCovers(ms: seq<Moment>, a: Geom, b: Geom, v: View)
    requires Proper(a) && Proper(b) && SameShape(a, b) && InRange(v)
    requires Seen(ms).shown && Seen(ms).view == ClampView(Some(a), v)
    ensures Covers(b, Seen(ms + [Moment(Some(b), Load)]).view)
  {
    ClampCovers(a, v);
    SameShapeCovered(a, b, Seen(ms).view);
    FirstSight(ms, b);
    CoversInBounds(b, Seen(ms).view);
    hide Covers, InBounds, ClampView, SameShape;
  }

  lemma SameShapeCovered(a: Geom, b: Geom, v: View)
    requires Proper(a) && Proper(b) && SameShape(a, b)
    ensures Covers(a, v) <==> Covers(b, v)
  {
    SameShapeSameSpans(a, b);
    hide SpanX, SpanY, SameShape;
    SameSpansCovered(a, b, v);
  }

  lemma SameSpansCovered(a: Geom, b: Geom, v: View)
    requires Proper(a) && Proper(b) && SpanX(a) == SpanX(b) && SpanY(a) == SpanY(b)
    ensures Covers(a, v) <==> Covers(b, v)
  {
    hide SpanX, SpanY;
  }

  /** A stored crop meets the image's first load as it was stored, but for the limits of the zoom. */
  lemma StoredCropLoads(stored: View)
    ensures var seen := Seen([Moment(None, Render(Some(stored), true))]);
            seen.shown && seen.view == stored.(s := ClampS(stored.s))
  {
    var ms := [Moment(None, Render(Some(stored), true))];
    assert ms[..0] == [];
    assert Seen(ms[..0]) == NEW_ELEMENT;
    assert Seen(ms) == After(NEW_ELEMENT, None, Render(Some(stored), true));
  }

  /** A crop stored for another shape does leave part of a square frame bare. */
  lemma LoadCanUncover()
    ensures var g := Geom(1.0, 1.0, 1.0, 1.0);
            var ms := [Moment(None, Render(Some(View(1.0, 40.0, 0.0)), true)), Moment(Some(g), Load)];
            Seen(ms).shown && !Covers(g, Seen(ms).view)
  {
    var first := [Moment(None, Render(Some(View(1.0, 40.0, 0.0)), true))];
    var g := Geom(1.0, 1.0, 1.0, 1.0);
    StoredCropLoads(View(1.0, 40.0, 0.0));
    FirstSight(first, g);
    assert first + [Moment(Some(g), Load)] == [first[0], Moment(Some(g), Load)];
    assert SpanX(g) == 1.0;
  }

  /** Whatever the geometry does between events, the zoom stays in range. */
  lemma {:induction false} ZoomStaysInRange(e: Element, ms: seq<Moment>)
    requires ElementOk(e)
    ensures ElementOk(Fold(Step(), e, ms)) && 1.0 <= Fold(Step(), e, ms).view.s <= 5.0
  {
    if ms != [] {
      var n := |ms| - 1;
      ZoomStaysInRange(e, ms[..n]);
      if Sized(ms[n]) {
        GestureCovers(Fold(Step(), e, ms[..n]), ms[n].geom, ms[n].gesture);
      }
    }
  }

  /** The element's handlers, updating its view in place. */
  class SlotElement {
    var s: real
    var x: real
    var y: real
    var grab: Option<Grab>
    var reframing: bool
    var shown: bool

    ghost function Now(): Element
      reads this
    {
      Element(View(s, x, y), grab, reframing, shown)
    }

    constructor ()
      ensures Now() == NEW_ELEMENT
    {
      s, x, y, grab, reframing, shown := 1.0, 0.0, 0.0, None, false, false;
    }

    method Clamp(geom: Option<Geom>)
      requires geom.Some? ==> Proper(geom.value)
      modifies this`x, this`y
      ensures View(s, x, y) == ClampView(geom, View(s, old(x), old(y)))
    {
      if geom.None? { return; }
      var mx := Max(0.0, (SpanX(geom.value) * s - 1.0) * 50.0);
      var my := Max(0.0, (SpanY(geom.value) * s - 1.0) * 50.0);
      x := Max(-mx, Min(mx, x));
      y := Max(-my, Min(my, y));
    }

    method EnterReframe()
      requires ElementOk(Now())
      modifies this`reframing
      ensures Now() == After(old(Now()), None, Enter)
    {
      if !reframing { reframing := true; }
    }

    method ExitReframe()
      requires ElementOk(Now())
      modifies this`reframing, this`grab
      ensures Now() == After(old(Now()), None, Exit)
    {
      if !reframing { return; }
      grab := None;
      reframing := false;
    }

    method PointerDown(g: Geom, diagonal: real)
      requires ElementOk(Now()) && GrabOk(Grab(View(s, x, y), g, diagonal))
      modifies this`grab
      ensures Now() == After(old(Now()), None, Down(g, diagonal))
    {
      if !reframing { return; }
      grab := Some(Grab(View(s, x, y), g, diagonal));
    }

    method PanMove(geom: Option<Geom>, dx: real, dy: real)
      requires ElementOk(Now()) && (geom.Some? ==> Proper(geom.value))
      modifies this
      ensures Now() == After(old(Now()), geom, Pan(dx, dy))
    {
      if grab.None? { return; }
      x := grab.value.view.x + dx / grab.value.g.fw * 100.0;
      y := grab.value.view.y + dy / grab.value.g.fh * 100.0;
      Clamp(geom);
    }

    method CornerMove(geom: Option<Geom>, c: Corner, px: real, py: real)
      requires ElementOk(Now()) && (geom.Some? ==> Proper(geom.value))
      modifies this
      ensures Now() == After(old(Now()), geom, Drag(c, px, py))
    {
      if grab.None? { return; }
      var v := ResizedTo(grab.value, c, ClampS(Asked(grab.value, c, px, py)));
      s, x, y := v.s, v.x, v.y;
      Clamp(geom);
    }

    method PointerUp()
      requires ElementOk(Now())
      modifies this`grab
      ensures Now() == After(old(Now()), None, Up)
    {
      grab := None;
    }

    method WheelMove(geom: Option<Geom>, cx: real, cy: real, factor: real)
      requires ElementOk(Now()) && (geom.Some? ==> Proper(geom.value))
      modifies this
      ensures Now() == After(old(Now()), geom, Wheel(cx, cy, factor))
    {
      hide ClampView;
      if !reframing { return; }
      ghost var zoomed := Zoomed(View(s, x, y), cx, cy, factor);
      var prev := s;
      var next := ClampS(prev * factor);
      if next == prev { return; }
      var k := next / prev;
      s := next;
      x := Toward(cx, x, k);
      y := Toward(cy, y, k);
      assert zoomed == Some(View(s, x, y));
      Clamp(geom);
    }

    /** `_render`: a crop being made is not overwritten, only clamped. */
    method Rerender(geom: Option<Geom>, stored: Option<View>, shows: bool)
      requires ElementOk(Now()) && (geom.Some? ==> Proper(geom.value))
      modifies this
      ensures Now() == After(old(Now()), geom, Render(stored, shows))
    {
      hide ClampView;
      if !reframing {
        if stored.Some? {
          s, x, y := ClampS(stored.value.s), stored.value.x, stored.value.y;
        } else {
          s, x, y := 1.0, 0.0, 0.0;
        }
      }
      shown := shows;
      assert View(s, x, y) == Seeded(old(Now()), stored);
      if shows { Clamp(geom); }
    }
  }
}
