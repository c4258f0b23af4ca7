/**
 The affine solver behind three-point touch calibration. Floats are modelled as reals, so the
 claims are about the formulas and not about rounding error.
 */
module TouchSolver {
  import opened Text

  datatype Point = Point(x: real, y: real)
  datatype Triple = Triple(p0: Point, p1: Point, p2: Point)

  /** One output coordinate: a x + b y + c. */
  datatype Row = Row(a: real, b: real, c: real)

  /** Rows (a, b, c) for x and (d, e, f) for y. */
  datatype Affine = Affine(rx: Row, ry: Row)

  /** The stored calibration. `NonFinite` is a result flagged valid whose divisor was zero. */
  datatype Calibration = Uncalibrated | Calibrated(fit: Affine) | NonFinite

  function Eval(r: Row, p: Point): real {
    p.x * r.a + p.y * r.b + r.c
  }

  function Apply(m: Affine, p: Point): Point {
    Point(Eval(m.rx, p), Eval(m.ry, p))
  }

  function Image(m: Affine, t: Triple): Triple {
    Triple(Apply(m, t.p0), Apply(m, t.p1), Apply(m, t.p2))
  }

  function Det(m: Affine): real {
    m.rx.a * m.ry.b - m.rx.b * m.ry.a
  }

  function Divisor(t: Triple): real {
    t.p0.x * (t.p2.y - t.p1.y) - t.p1.x * t.p2.y + t.p1.y * t.p2.x + t.p0.y * (t.p1.x - t.p2.x)
  }

  /** The three numerators for one output coordinate, whose targets are s0, s1 and s2. */
  function NumX(s0: real, s1: real, s2: real, t: Triple): real {
    s0 * (t.p2.y - t.p1.y) - s1 * t.p2.y + s2 * t.p1.y + (s1 - s2) * t.p0.y
  }

  function NumY(s0: real, s1: real, s2: real, t: Triple): real {
    -(s0 * (t.p2.x - t.p1.x) - s1 * t.p2.x + s2 * t.p1.x + (s1 - s2) * t.p0.x)
  }

  function NumC(s0: real, s1: real, s2: real, t: Triple): real {
    s0 * (t.p1.y * t.p2.x - t.p1.x * t.p2.y)
    + t.p0.x * (s1 * t.p2.y - s2 * t.p1.y)
    + t.p0.y * (s2 * t.p1.x - s1 * t.p2.x)
  }

  /** The row that sends the touched points to s0, s1 and s2. */
  function FitRow(s0: real, s1: real, s2: real, t: Triple): Row
    requires Divisor(t) != 0.0
  {
    var v := Divisor(t);
    Row(NumX(s0, s1, s2, t) / v, NumY(s0, s1, s2, t) / v, NumC(s0, s1, s2, t) / v)
  }

  /** The coefficients that send the touched points to the screen points. */
  function ComputeCoeff(scr: Triple, tch: Triple): Calibration {
    if Divisor(tch) == 0.0 then NonFinite
    else Calibrated(Affine(FitRow(scr.p0.x, scr.p1.x, scr.p2.x, tch), FitRow(scr.p0.y, scr.p1.y, scr.p2.y, tch)))
  }

  // ---- exactness at the three points ----

  lemma Cramer(s0: real, s1: real, s2: real, t: Triple)
    ensures t.p0.x * NumX(s0, s1, s2, t) + t.p0.y * NumY(s0, s1, s2, t) + NumC(s0, s1, s2, t) == s0 * Divisor(t)
    ensures t.p1.x * NumX(s0, s1, s2, t) + t.p1.y * NumY(s0, s1, s2, t) + NumC(s0, s1, s2, t) == s1 * Divisor(t)
    ensures t.p2.x * NumX(s0, s1, s2, t) + t.p2.y * NumY(s0, s1, s2, t) + NumC(s0, s1, s2, t) == s2 * Divisor(t)
  {
  }

  lemma DivideThrough(x: real, y: real, p: real, q: real, r: real, s: real, v: real)
    requires v != 0.0 && x * p + y * q + r == s * v
    ensures x * (p / v) + y * (q / v) + r / v == s
  {
    var a, b, c := p / v, q / v, r / v;
    assert a * v == p && b * v == q && c * v == r;
    assert (x * a + y * b + c) * v == x * (a * v) + y * (b * v) + c * v;
    Cancel(x * a + y * b + c, s, v);
  }

  lemma Cancel(a: real, b: real, v: real)
    requires v != 0.0 && a * v == b * v
    ensures a == b
  {
    assert (a - b) * v == 0.0;
  }

  /** One coordinate of the fit, evaluated at the three touched points. */
  lemma FitCoordinate(s0: real, s1: real, s2: real, t: Triple)
    requires Divisor(t) != 0.0
    ensures Eval(FitRow(s0, s1, s2, t), t.p0) == s0
    ensures Eval(FitRow(s0, s1, s2, t), t.p1) == s1
    ensures Eval(FitRow(s0, s1, s2, t), t.p2) == s2
  {
    var v, p, q, r := Divisor(t), NumX(s0, s1, s2, t), NumY(s0, s1, s2, t), NumC(s0, s1, s2, t);
    Cramer(s0, s1, s2, t);
    DivideThrough(t.p0.x, t.p0.y, p, q, r, s0, v);
    DivideThrough(t.p1.x, t.p1.y, p, q, r, s1, v);
    DivideThrough(t.p2.x, t.p2.y, p, q, r, s2, v);
  }

  /** The fit maps each touched point to its target, whenever the divisor is not zero. */
  lemma FitIsExact(scr: Triple, tch: Triple)
    requires Divisor(tch) != 0.0
    ensures ComputeCoeff(scr, tch).Calibrated?
    ensures Image(ComputeCoeff(scr, tch).fit, tch) == scr
  {
    FitCoordinate(scr.p0.x, scr.p1.x, scr.p2.x, tch);
    FitCoordinate(scr.p0.y, scr.p1.y, scr.p2.y, tch);
  }

  // ---- uniqueness of affine maps ----

  /** A linear form that vanishes at three points of non-zero divisor is the zero form. */
  lemma ZeroForm(a: real, b: real, c: real, t: Triple)
    requires Divisor(t) != 0.0
    requires t.p0.x * a + t.p0.y * b + c == 0.0
    requires t.p1.x * a + t.p1.y * b + c == 0.0
    requires t.p2.x * a + t.p2.y * b + c == 0.0
    ensures a == 0.0 && b == 0.0 && c == 0.0
  {
    var u1, w1, u2, w2 := t.p1.x - t.p0.x, t.p1.y - t.p0.y, t.p2.x - t.p0.x, t.p2.y - t.p0.y;
    var v := u2 * w1 - u1 * w2;
    assert Divisor(t) == v;
    assert u1 * a + w1 * b == 0.0 && u2 * a + w2 * b == 0.0;
    assert a * v == w1 * (u2 * a + w2 * b) - w2 * (u1 * a + w1 * b);
    assert b * v == u2 * (u1 * a + w1 * b) - u1 * (u2 * a + w2 * b);
    Cancel(a, 0.0, v);
    Cancel(b, 0.0, v);
  }

  lemma EqualForms(m: Row, n: Row, t: Triple)
    requires Divisor(t) != 0.0
    requires Eval(m, t.p0) == Eval(n, t.p0) && Eval(m, t.p1) == Eval(n, t.p1) && Eval(m, t.p2) == Eval(n, t.p2)
    ensures m == n
  {
    ZeroForm(m.a - n.a, m.b - n.b, m.c - n.c, t);
  }

  /** Two affine maps that agree on three non-collinear points are the same map. */
  lemma AffineUnique(m: Affine, n: Affine, t: Triple)
    requires Divisor(t) != 0.0 && Image(m, t) == Image(n, t)
    ensures m == n
  {
    EqualForms(m.rx, n.rx, t);
    EqualForms(m.ry, n.ry, t);
  }

  // ---- the calibration recovers the panel ----

  /** The row that first applies the panel and then `r`. */
  function After(r: Row, panel: Affine): Row {
    Row(r.a * panel.rx.a + r.b * panel.ry.a, r.a * panel.rx.b + r.b * panel.ry.b, r.a * panel.rx.c + r.b * panel.ry.c + r.c)
  }

  function Compose(m: Affine, panel: Affine): Affine {
    Affine(After(m.rx, panel), After(m.ry, panel))
  }

  const Identity: Affine := Affine(Row(1.0, 0.0, 0.0), Row(0.0, 1.0, 0.0))

  lemma Substituted(x: real, y: real, r: Row, a: real, b: real, c: real, d: real, e: real, f: real)
    ensures x * (r.a * a + r.b * d) + y * (r.a * b + r.b * e) + (r.a * c + r.b * f + r.c)
         == (x * a + y * b + c) * r.a + (x * d + y * e + f) * r.b + r.c
  {
  }

  lemma AfterEvaluates(r: Row, panel: Affine, p: Point)
    ensures Eval(After(r, panel), p) == Eval(r, Apply(panel, p))
  {
    Substituted(p.x, p.y, r, panel.rx.a, panel.rx.b, panel.rx.c, panel.ry.a, panel.ry.b, panel.ry.c);
  }

  lemma ComposeApplies(m: Affine, panel: Affine, p: Point)
    ensures Apply(Compose(m, panel), p) == Apply(m, Apply(panel, p))
  {
    AfterEvaluates(m.rx, panel, p);
    AfterEvaluates(m.ry, panel, p);
  }

  /** The divisor is the area form of the two edges from the first point. */
  lemma DivisorByEdges(t: Triple)
    ensures Divisor(t) == (t.p2.x - t.p0.x) * (t.p1.y - t.p0.y) - (t.p1.x - t.p0.x) * (t.p2.y - t.p0.y)
  {
  }

  lemma EdgeOfImage(r: Row, p: Point, q: Point)
    ensures Eval(r, p) - Eval(r, q) == r.a * (p.x - q.x) + r.b * (p.y - q.y)
  {
  }

  lemma AreaScales(a: real, b: real, d: real, e: real, u1: real, w1: real, u2: real, w2: real)
    ensures (a * u2 + b * w2) * (d * u1 + e * w1) - (a * u1 + b * w1) * (d * u2 + e * w2) == (a * e - b * d) * (u2 * w1 - u1 * w2)
  {
  }

  /** A panel scales the divisor of any three points by its determinant. */
  lemma DivisorOfImage(panel: Affine, s: Triple)
    ensures Divisor(Image(panel, s)) == Det(panel) * Divisor(s)
  {
    hide Divisor, Eval;
    var t := Image(panel, s);
    var u1, w1, u2, w2 := s.p1.x - s.p0.x, s.p1.y - s.p0.y, s.p2.x - s.p0.x, s.p2.y - s.p0.y;
    DivisorByEdges(s);
    DivisorByEdges(t);
    EdgeOfImage(panel.rx, s.p1, s.p0);
    EdgeOfImage(panel.rx, s.p2, s.p0);
    EdgeOfImage(panel.ry, s.p1, s.p0);
    EdgeOfImage(panel.ry, s.p2, s.p0);
    AreaScales(panel.rx.a, panel.rx.b, panel.ry.a, panel.ry.b, u1, w1, u2, w2);
  }

  /** The solver succeeds exactly for an invertible panel and non-collinear targets. */
  lemma SolvableIff(panel: Affine, scr: Triple)
    ensures ComputeCoeff(scr, Image(panel, scr)).Calibrated? <==> Det(panel) != 0.0 && Divisor(scr) != 0.0
  {
    DivisorOfImage(panel, scr);
  }

  /** For any invertible affine panel and non-collinear targets, every touch maps back exactly. */
  lemma RecoversPanel(panel: Affine, scr: Triple, p: Point)
    requires Det(panel) != 0.0 && Divisor(scr) != 0.0
    ensures ComputeCoeff(scr, Image(panel, scr)).Calibrated?
    ensures Apply(ComputeCoeff(scr, Image(panel, scr)).fit, Apply(panel, p)) == p
  {
    var tch := Image(panel, scr);
    DivisorOfImage(panel, scr);
    FitIsExact(scr, tch);
    var fit := ComputeCoeff(scr, tch).fit;
    ComposeApplies(fit, panel, scr.p0);
    ComposeApplies(fit, panel, scr.p1);
    ComposeApplies(fit, panel, scr.p2);
    AffineUnique(Compose(fit, panel), Identity, scr);
    ComposeApplies(fit, panel, p);
  }

  // ---- rounding to pixels ----

  /** C's roundf: to the nearest integer, halves away from zero. */
  function Round(r: real): int {
    if r >= 0.0 then (r + 0.5).Floor else -((-r + 0.5).Floor)
  }

  lemma RoundNearest(r: real)
    ensures -0.5 <= r - Round(r) as real <= 0.5
    ensures r == r.Floor as real ==> Round(r) == r.Floor
    ensures r - r.Floor as real == 0.5 ==> Round(r) == if r > 0.0 then r.Floor + 1 else r.Floor
  {
  }

  datatype Pixel = Pixel(x: int, y: int)

  function At(p: Pixel): Point {
    Point(p.x as real, p.y as real)
  }

  /**
   The pixel a touch is reported at, without display rotation. `None` is the conversion of a
   non-finite float to an integer, which C leaves undefined.
   */
  function TransformPoint(cal: Calibration, p: Pixel): (r: Option<Pixel>)
    ensures r.None? <==> cal.NonFinite?
    ensures cal.Uncalibrated? ==> r == Some(p)
  {
    match cal
    case Uncalibrated => Some(p)
    case NonFinite => None
    case Calibrated(m) => var q := Apply(m, At(p)); Some(Pixel(Round(q.x), Round(q.y)))
  }

  /** A whole-pixel touch on an exactly affine panel is reported at its own screen pixel. */
  lemma TransformRecovers(panel: Affine, scr: Triple, on: Pixel, touch: Pixel)
    requires Det(panel) != 0.0 && Divisor(scr) != 0.0
    requires At(touch) == Apply(panel, At(on))
    ensures ComputeCoeff(scr, Image(panel, scr)).Calibrated?
    ensures TransformPoint(ComputeCoeff(scr, Image(panel, scr)), touch) == Some(on)
  {
    RecoversPanel(panel, scr, At(on));
    RoundNearest(on.x as real);
    RoundNearest(on.y as real);
  }

  // ---- the automatically chosen targets ----

  /** Truncated 15%, 30% and 40% of a resolution. */
  function AutoPoints(w: nat, h: nat): (Pixel, Pixel, Pixel) {
    var marginH, marginV := w * 15 / 100, h * 15 / 100;
    var margin := if marginH < marginV then marginH else marginV;
    (Pixel(margin, h * 30 / 100), Pixel(w * 40 / 100, h - margin), Pixel(w - margin, margin))
  }

  function AutoTriple(w: nat, h: nat): Triple {
    var (a, b, c) := AutoPoints(w, h);
    Triple(At(a), At(b), At(c))
  }

  lemma SpreadIsNotFlat(u1: real, w1: real, u2: real, w2: real)
    requires u1 >= 0.0 && w2 <= 0.0 && u2 > 0.0 && w1 > 0.0
    ensures u2 * w1 - u1 * w2 > 0.0
  {
    assert u2 * w1 > 0.0;
    assert u1 * w2 <= 0.0;
  }

  predicate OnGlass(p: Pixel, w: nat, h: nat) {
    0 <= p.x < w && 0 <= p.y < h
  }

  /** `n` is `percent` of `whole`, cut to a whole pixel. */
  predicate Percent(n: int, percent: int, whole: int) {
    100 * n <= percent * whole < 100 * (n + 1)
  }

  /**
   Where the targets are: one margin in from the left at 30% of the height, one margin up from the
   bottom at 40% of the width, and in the top right corner; the margin is 15% of the smaller side.
   */
  lemma AutoPointsPlaced(w: nat, h: nat)
    ensures var (a, b, c) := AutoPoints(w, h);
            && Percent(a.x, 15, if w < h then w else h) && Percent(a.y, 30, h)
            && Percent(b.x, 40, w) && h - b.y == a.x
            && w - c.x == a.x && c.y == a.x
  {
  }

  /** All three targets can be touched if and only if the display is at least 7 x 7. */
  lemma AutoPointsOnGlassIff(w: nat, h: nat)
    requires w >= 1 && h >= 1
    ensures var (a, b, c) := AutoPoints(w, h);
            OnGlass(a, w, h) && OnGlass(b, w, h) && OnGlass(c, w, h) <==> w >= 7 && h >= 7
  {
  }

  lemma AutoPointsOrder(w: nat, h: nat)
    requires w >= 1 && h >= 1
    ensures var (a, b, c) := AutoPoints(w, h); a.x <= b.x && c.y <= a.y && a.x < c.x && a.y < b.y
  {
  }

  /** The automatic targets are never collinear, truncation included. */
  lemma AutoPointsSpread(w: nat, h: nat)
    requires w >= 1 && h >= 1
    ensures Divisor(AutoTriple(w, h)) > 0.0
  {
    hide AutoPoints, Divisor;
    AutoPointsOrder(w, h);
    var t := AutoTriple(w, h);
    DivisorByEdges(t);
    SpreadIsNotFlat(t.p1.x - t.p0.x, t.p1.y - t.p0.y, t.p2.x - t.p0.x, t.p2.y - t.p0.y);
  }

  /** So an invertible panel always calibrates on the automatic targets. */
  lemma AutoCalibrates(panel: Affine, w: nat, h: nat)
    requires w >= 1 && h >= 1
    ensures ComputeCoeff(AutoTriple(w, h), Image(panel, AutoTriple(w, h))).Calibrated? <==> Det(panel) != 0.0
  {
    AutoPointsSpread(w, h);
    SolvableIff(panel, AutoTriple(w, h));
  }
}
