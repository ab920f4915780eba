/**
 * The animated background: a field of drifting particles on a canvas, each
 * moved once per frame and wrapped back onto the canvas, with a line drawn
 * between every two particles closer than a fixed distance.
 *
 * Positions and speeds are reals. Every call of the random number generator
 * is a parameter in [0, 1). The canvas itself is left out: a frame returns
 * the circles and lines it would draw.
 */
module AnimatedBackground {
  import opened Wrappers

  /** At most this many particles, whatever the canvas size. */
  const MaxParticles: nat := 100
  /** One particle per this many square pixels of canvas. */
  const AreaPerParticle: nat := 9000
  /** Two particles are joined by a line when they are closer than this. */
  const MaxDistance: real := 150.0
  /** The threshold compared against squared distances: `150 * 150`. */
  const MaxDistanceSquared: real := 22500.0

  /** `Math.min(100, Math.floor(width * height / 9000))`. */
  function ParticleCount(width: nat, height: nat): (n: nat)
    ensures n <= MaxParticles
    ensures n * AreaPerParticle <= width * height
    ensures n == MaxParticles || width * height < (n + 1) * AreaPerParticle
  {
    var byArea := width * height / AreaPerParticle;
    if byArea < MaxParticles then byArea else MaxParticles
  }

  /**
   * The per-axis wrap: past the far edge a coordinate restarts at 0, below 0 it
   * restarts at the far edge. The far edge itself is a legal position.
   */
  function Wrap(v: real, bound: real): (r: real)
    requires bound >= 0.0
    ensures 0.0 <= r <= bound
    ensures 0.0 <= v <= bound ==> r == v
    ensures v > bound ==> r == 0.0
    ensures v < 0.0 ==> r == bound
  {
    if v > bound then 0.0
    else if v < 0.0 then bound
    else v
  }

  /**
   * A coordinate leaving past one edge comes back at the opposite one, not at the
   * edge it crossed: the far edge is reached from below 0, and 0 from past the far edge.
   */
  lemma WrapReachesFarEdge(bound: real)
    requires bound > 0.0
    ensures forall v :: v < 0.0 ==> Wrap(v, bound) == bound && Wrap(v, bound) != 0.0
    ensures forall v :: v > bound ==> Wrap(v, bound) == 0.0 && Wrap(v, bound) != bound
  {
  }

  /** A colour as the canvas receives it in an `hsla(...)` string. */
  datatype Hsla = Hsla(hue: real, saturation: real, lightness: real, alpha: real)

  /** The seven random numbers one particle draws, in the order it draws them. */
  datatype Draws = Draws(x: real, y: real, size: real, speedX: real, speedY: real, hue: real, alpha: real)

  predicate InUnit(r: real)
  {
    0.0 <= r < 1.0
  }

  predicate Random(d: Draws)
  {
    InUnit(d.x) && InUnit(d.y) && InUnit(d.size) && InUnit(d.speedX) &&
    InUnit(d.speedY) && InUnit(d.hue) && InUnit(d.alpha)
  }

  /**
   * The palette for the theme the library reports (none before it has resolved one)
   * and the browser's colour-scheme preference.
   */
  function IsDark(theme: Option<string>, prefersDark: bool): (dark: bool)
    ensures theme == Some("dark") ==> dark
    ensures theme == Some("system") ==> (dark <==> prefersDark)
    ensures theme != Some("dark") && theme != Some("system") ==> !dark
  {
    theme == Some("dark") || (theme == Some("system") && prefersDark)
  }

  /** A particle's colour: a violet band whose placement and opacity depend on the palette. */
  function ParticleColor(isDark: bool, rHue: real, rAlpha: real): (c: Hsla)
    requires InUnit(rHue) && InUnit(rAlpha)
    ensures isDark ==> 260.0 <= c.hue < 290.0 && c.saturation == 70.0 && c.lightness == 50.0
    ensures isDark ==> 0.1 <= c.alpha < 0.4
    ensures !isDark ==> 280.0 <= c.hue < 310.0 && c.saturation == 60.0 && c.lightness == 70.0
    ensures !isDark ==> 0.05 <= c.alpha < 0.25
  {
    if isDark then Hsla(260.0 + rHue * 30.0, 70.0, 50.0, rAlpha * 0.3 + 0.1)
    else Hsla(280.0 + rHue * 30.0, 60.0, 70.0, rAlpha * 0.2 + 0.05)
  }

  /** The value of a particle: where it is, how it moves, how it looks. */
  datatype Dot = Dot(x: real, y: real, size: real, speedX: real, speedY: real, color: Hsla)

  /** A random fraction of a length lies between 0 and the length, both included. */
  lemma ScaleUnit(r: real, len: real)
    requires InUnit(r) && len >= 0.0
    ensures 0.0 <= r * len <= len
  {
    assert r * len <= 1.0 * len;
  }

  /** A random fraction of a positive length lies below the length. */
  lemma ScaleUnitStrict(r: real, len: real)
    requires InUnit(r) && len > 0.0
    ensures 0.0 <= r * len < len
  {
    assert r * len < 1.0 * len;
  }

  /** A newly created particle on a `width` by `height` canvas. */
  function Spawn(width: nat, height: nat, isDark: bool, d: Draws): (p: Dot)
    requires Random(d)
    ensures 0.0 <= p.x <= width as real && 0.0 <= p.y <= height as real
    ensures 1.0 <= p.size < 6.0
    ensures -0.5 <= p.speedX < 0.5 && -0.5 <= p.speedY < 0.5
    ensures p.color == ParticleColor(isDark, d.hue, d.alpha)
  {
    var w, h := width as real, height as real;
    ScaleUnit(d.x, w);
    ScaleUnit(d.y, h);
    ScaleUnitStrict(d.size, 5.0);
    ScaleUnitStrict(d.speedX, 1.0);
    ScaleUnitStrict(d.speedY, 1.0);
    Dot(d.x * w, d.y * h, d.size * 5.0 + 1.0,
        d.speedX * 1.0 - 0.5, d.speedY * 1.0 - 0.5,
        ParticleColor(isDark, d.hue, d.alpha))
  }

  /**
   * The theme decides a new particle's hue band: violet from 260 on a dark theme,
   * pinker from 280 on a light one, and the browser's preference under "system".
   */
  lemma SpawnPalette(width: nat, height: nat, theme: Option<string>, prefersDark: bool, d: Draws)
    requires Random(d)
    ensures theme == Some("dark") ==> 260.0 <= Spawn(width, height, IsDark(theme, prefersDark), d).color.hue < 290.0
    ensures theme == Some("light") ==> 280.0 <= Spawn(width, height, IsDark(theme, prefersDark), d).color.hue < 310.0
    ensures theme == Some("system") && prefersDark ==> Spawn(width, height, IsDark(theme, prefersDark), d).color.saturation == 70.0
    ensures theme == Some("system") && !prefersDark ==> Spawn(width, height, IsDark(theme, prefersDark), d).color.saturation == 60.0
  {
  }

  /** One move of a particle: add the speed to the position, then wrap each axis on its own. */
  function Step(p: Dot, width: nat, height: nat): (q: Dot)
    ensures 0.0 <= q.x <= width as real && 0.0 <= q.y <= height as real
    ensures q.size == p.size && q.speedX == p.speedX && q.speedY == p.speedY && q.color == p.color
    ensures q.x == Wrap(p.x + p.speedX, width as real)
    ensures q.y == Wrap(p.y + p.speedY, height as real)
  {
    p.(x := Wrap(p.x + p.speedX, width as real), y := Wrap(p.y + p.speedY, height as real))
  }

  /** The new x does not depend on the old y, nor the new y on the old x. */
  lemma StepAxesIndependent(p: Dot, p': Dot, width: nat, height: nat)
    requires p.x == p'.x && p.speedX == p'.speedX
    ensures Step(p, width, height).x == Step(p', width, height).x
  {
  }

  class Particle {
    var x: real
    var y: real
    const size: real
    const speedX: real
    const speedY: real
    const color: Hsla

    function View(): Dot
      reads this
    {
      Dot(x, y, size, speedX, speedY, color)
    }

    constructor (width: nat, height: nat, isDark: bool, d: Draws)
      requires Random(d)
      ensures View() == Spawn(width, height, isDark, d)
    {
      x := d.x * width as real;
      y := d.y * height as real;
      size := d.size * 5.0 + 1.0;
      speedX := d.speedX * 1.0 - 0.5;
      speedY := d.speedY * 1.0 - 0.5;
      color := ParticleColor(isDark, d.hue, d.alpha);
    }

    /** Moves the particle on a canvas of the given current size, from wherever it is. */
    method Update(width: nat, height: nat)
      modifies this
      ensures View() == Step(old(View()), width, height)
      ensures 0.0 <= x <= width as real && 0.0 <= y <= height as real
    {
      x := x + speedX;
      y := y + speedY;
      if x > width as real {
        x := 0.0;
      } else if x < 0.0 {
        x := width as real;
      }
      if y > height as real {
        y := 0.0;
      } else if y < 0.0 {
        y := height as real;
      }
    }
  }

  /** A filled circle as `draw` paints it. */
  datatype Circle = Circle(x: real, y: real, radius: real, color: Hsla)

  function CircleOf(p: Dot): Circle
  {
    Circle(p.x, p.y, p.size, p.color)
  }

  /**
   * A connecting line between particles `a` and `b`, drawn from the first to the
   * second, with the squared distance between them.
   */
  datatype Stroke = Stroke(a: nat, b: nat, dist2: real)

  function Dist2(p: Dot, q: Dot): (d2: real)
    ensures d2 >= 0.0
  {
    (p.x - q.x) * (p.x - q.x) + (p.y - q.y) * (p.y - q.y)
  }

  /** `dx * dx + dy * dy`. */
  function SumOfSquares(dx: real, dy: real): real
  {
    dx * dx + dy * dy
  }

  lemma Dist2ByDeltas(p: Dot, q: Dot, dx: real, dy: real)
    requires dx == p.x - q.x && dy == p.y - q.y
    ensures SumOfSquares(dx, dy) == Dist2(p, q)
  {
  }

  /**
   * `Math.sqrt(d2) < 150`, stated without the square root: for a distance `d >= 0`,
   * `d < 150` exactly when `d * d < 150 * 150`.
   */
  lemma {:induction false} ThresholdBySquare(d: real)
    requires d >= 0.0
    ensures d < MaxDistance <==> d * d < MaxDistanceSquared
  {
    if d < MaxDistance {
      assert d * d <= d * MaxDistance;
      assert d * MaxDistance < MaxDistanceSquared;
    } else {
      assert d * d >= d * MaxDistance;
      assert d * MaxDistance >= MaxDistanceSquared;
    }
  }

  /** `1 - distance / 150`: full opacity at distance 0, fading towards the threshold. */
  function BaseOpacity(distance: real): (o: real)
    requires 0.0 <= distance < MaxDistance
    ensures 0.0 < o <= 1.0
    ensures distance == 0.0 <==> o == 1.0
  {
    1.0 - distance / MaxDistance
  }

  /** The style of a connecting line: one fixed hue per palette, opacity scaled down by 0.2 or 0.1. */
  function LineColor(distance: real, isDark: bool): (c: Hsla)
    requires 0.0 <= distance < MaxDistance
    ensures isDark ==> c.hue == 260.0 && c.saturation == 70.0 && c.lightness == 50.0 && 0.0 < c.alpha <= 0.2
    ensures !isDark ==> c.hue == 280.0 && c.saturation == 60.0 && c.lightness == 70.0 && 0.0 < c.alpha <= 0.1
    ensures c.alpha == BaseOpacity(distance) * (if isDark then 0.2 else 0.1)
  {
    if isDark then Hsla(260.0, 70.0, 50.0, BaseOpacity(distance) * 0.2)
    else Hsla(280.0, 60.0, 70.0, BaseOpacity(distance) * 0.1)
  }

  /** The pairs `(a, a), (a, a + 1), ..., (a, b - 1)`: one row of the inner loop, cut at `b`. */
  function RowPairs(a: nat, b: nat): (row: seq<(nat, nat)>)
    ensures |row| == if b <= a then 0 else b - a
    ensures forall k :: 0 <= k < |row| ==> row[k] == (a, a + k)
  {
    if b <= a then [] else seq(b - a, k requires 0 <= k < b - a => (a, a + k))
  }

  /** Visiting `(a, b)` extends the row cut at `b` by that pair. */
  lemma RowPairsExtend(a: nat, b: nat)
    requires a <= b
    ensures RowPairs(a, b + 1) == RowPairs(a, b) + [(a, b)]
  {
  }

  /** The pairs the nested loop visits in its first `a` rows over `n` particles. */
  function PairsBefore(a: nat, n: nat): seq<(nat, nat)>
  {
    if a == 0 then [] else PairsBefore(a - 1, n) + RowPairs(a - 1, n)
  }

  /** Every pair the nested loop `for a < n, for b from a to n` visits, in order. */
  function Pairs(n: nat): seq<(nat, nat)>
  {
    PairsBefore(n, n)
  }

  lemma RowPairsHas(a: nat, n: nat, p: (nat, nat))
    requires a <= n
    ensures p in RowPairs(a, n) <==> p.0 == a && a <= p.1 < n
  {
    if p.0 == a && a <= p.1 < n {
      assert RowPairs(a, n)[p.1 - a] == p;
    }
  }

  /** The first `a` rows hold exactly the pairs whose first index is below `a`. */
  lemma {:induction false} PairsBeforeHas(a: nat, n: nat, p: (nat, nat))
    requires a <= n
    ensures p in PairsBefore(a, n) <==> p.0 < a && p.0 <= p.1 < n
  {
    if a > 0 {
      PairsBeforeHas(a - 1, n, p);
      RowPairsHas(a - 1, n, p);
    }
  }

  /** The nested loop visits exactly the pairs `a <= b < n`, self-pairs included. */
  lemma PairsAreUpperTriangle(n: nat)
    ensures forall a: nat, b: nat :: (a, b) in Pairs(n) <==> a <= b < n
  {
    forall a: nat, b: nat
      ensures (a, b) in Pairs(n) <==> a <= b < n
    {
      PairsBeforeHas(n, n, (a, b));
    }
  }

  /** `p` comes strictly before `q` in the order the loop visits pairs. */
  predicate Before(p: (nat, nat), q: (nat, nat))
  {
    p.0 < q.0 || (p.0 == q.0 && p.1 < q.1)
  }

  predicate InVisitOrder(ps: seq<(nat, nat)>)
  {
    forall i, j :: 0 <= i < j < |ps| ==> Before(ps[i], ps[j])
  }

  lemma ConcatInVisitOrder(left: seq<(nat, nat)>, right: seq<(nat, nat)>)
    requires InVisitOrder(left) && InVisitOrder(right)
    requires forall i, j :: 0 <= i < |left| && 0 <= j < |right| ==> Before(left[i], right[j])
    ensures InVisitOrder(left + right)
  {
    forall i, j | 0 <= i < j < |left + right|
      ensures Before((left + right)[i], (left + right)[j])
    {
      if j < |left| {
        assert (left + right)[i] == left[i] && (left + right)[j] == left[j];
      } else if i < |left| {
        assert (left + right)[i] == left[i] && (left + right)[j] == right[j - |left|];
      } else {
        assert (left + right)[i] == right[i - |left|] && (left + right)[j] == right[j - |left|];
      }
    }
  }

  lemma RowPairsInVisitOrder(a: nat, b: nat)
    requires a <= b
    ensures InVisitOrder(RowPairs(a, b))
    ensures forall k :: 0 <= k < |RowPairs(a, b)| ==> RowPairs(a, b)[k].0 == a
  {
  }

  lemma {:induction false} PairsBeforeRowsBelow(a: nat, n: nat)
    requires a <= n
    ensures forall k :: 0 <= k < |PairsBefore(a, n)| ==> PairsBefore(a, n)[k].0 < a
  {
    if a > 0 {
      PairsBeforeRowsBelow(a - 1, n);
      var left: seq<(nat, nat)>, row: seq<(nat, nat)> := PairsBefore(a - 1, n), RowPairs(a - 1, n);
      RowPairsInVisitOrder(a - 1, n);
      forall k | 0 <= k < |left + row|
        ensures (left + row)[k].0 < a
      {
        if k < |left| {
          assert (left + row)[k] == left[k];
        } else {
          assert (left + row)[k] == row[k - |left|];
        }
      }
    }
  }

  lemma {:induction false} PairsBeforeOrdered(a: nat, n: nat)
    requires a <= n
    ensures InVisitOrder(PairsBefore(a, n))
  {
    if a > 0 {
      PairsBeforeOrdered(a - 1, n);
      PairsBeforeRowsBelow(a - 1, n);
      RowPairsInVisitOrder(a - 1, n);
      ConcatInVisitOrder(PairsBefore(a - 1, n), RowPairs(a - 1, n));
    }
  }

  /** No pair is visited twice. */
  lemma PairsVisitedOnce(n: nat)
    ensures forall i, j :: 0 <= i < j < |Pairs(n)| ==> Pairs(n)[i] != Pairs(n)[j]
  {
    PairsBeforeOrdered(n, n);
  }

  /** The line the pair `p` gets, if its particles are closer than the threshold. */
  function StrokeIf(dots: seq<Dot>, p: (nat, nat)): seq<Stroke>
  {
    if p.0 < |dots| && p.1 < |dots| && Dist2(dots[p.0], dots[p.1]) < MaxDistanceSquared
    then [Stroke(p.0, p.1, Dist2(dots[p.0], dots[p.1]))]
    else []
  }

  /** The lines drawn by one row of the inner loop, for `b` from `a` up to (excluding) `b`. */
  function RowStrokes(dots: seq<Dot>, a: nat, b: nat): seq<Stroke>
  {
    if b <= a then [] else RowStrokes(dots, a, b - 1) + StrokeIf(dots, (a, b - 1))
  }

  /** The lines drawn by the first `a` rows of the outer loop. */
  function StrokesBefore(dots: seq<Dot>, a: nat): seq<Stroke>
  {
    if a == 0 then [] else StrokesBefore(dots, a - 1) + RowStrokes(dots, a - 1, |dots|)
  }

  /** The lines `connectParticles` draws for the particles `dots`. */
  function Connections(dots: seq<Dot>): seq<Stroke>
  {
    StrokesBefore(dots, |dots|)
  }

  /** The line `s` joins two particles of the field that are closer than the threshold, and records their squared distance. */
  predicate Joins(dots: seq<Dot>, s: Stroke)
  {
    s.a < |dots| && s.b < |dots| && s.dist2 == Dist2(dots[s.a], dots[s.b]) && s.dist2 < MaxDistanceSquared
  }

  lemma {:induction false} RowStrokesHas(dots: seq<Dot>, a: nat, b: nat, s: Stroke)
    ensures s in RowStrokes(dots, a, b) <==> s.a == a && a <= s.b < b && Joins(dots, s)
  {
    if b > a {
      var left := RowStrokes(dots, a, b - 1);
      assert s in left <==> s.a == a && a <= s.b < b - 1 && Joins(dots, s) by {
        RowStrokesHas(dots, a, b - 1, s);
      }
      assert s in RowStrokes(dots, a, b) <==> s in left || s in StrokeIf(dots, (a, b - 1));
    }
  }

  lemma {:induction false} StrokesBeforeHas(dots: seq<Dot>, a: nat, s: Stroke)
    ensures s in StrokesBefore(dots, a) <==> s.a < a && s.a <= s.b && Joins(dots, s)
  {
    if a > 0 {
      var left, row := StrokesBefore(dots, a - 1), RowStrokes(dots, a - 1, |dots|);
      assert s in left <==> s.a < a - 1 && s.a <= s.b && Joins(dots, s) by {
        StrokesBeforeHas(dots, a - 1, s);
      }
      assert s in row <==> s.a == a - 1 && a - 1 <= s.b < |dots| && Joins(dots, s) by {
        RowStrokesHas(dots, a - 1, |dots|, s);
      }
      assert s in StrokesBefore(dots, a) <==> s in left || s in row;
    }
  }

  /**
   * A line joins particles `a` and `b` exactly when `a <= b` and they are closer
   * than the threshold; the line records their squared distance.
   */
  lemma ConnectionsExactly(dots: seq<Dot>, s: Stroke)
    ensures s in Connections(dots) <==>
      s.a <= s.b < |dots| && s.dist2 == Dist2(dots[s.a], dots[s.b]) && s.dist2 < MaxDistanceSquared
  {
    StrokesBeforeHas(dots, |dots|, s);
  }

  /** The particle pairs the lines join, in drawing order. */
  function Ends(strokes: seq<Stroke>): (ps: seq<(nat, nat)>)
    ensures |ps| == |strokes|
    ensures forall k :: 0 <= k < |ps| ==> ps[k] == (strokes[k].a, strokes[k].b)
  {
    seq(|strokes|, k requires 0 <= k < |strokes| => (strokes[k].a, strokes[k].b))
  }

  lemma EndsAppend(left: seq<Stroke>, right: seq<Stroke>)
    ensures Ends(left + right) == Ends(left) + Ends(right)
  {
  }

  /** Lines drawn in visit order, followed by lines that all come later, are still in visit order. */
  lemma AppendInVisitOrder(left: seq<Stroke>, right: seq<Stroke>)
    requires InVisitOrder(Ends(left)) && InVisitOrder(Ends(right))
    requires forall i, j :: 0 <= i < |left| && 0 <= j < |right| ==> Before(Ends(left)[i], Ends(right)[j])
    ensures InVisitOrder(Ends(left + right))
  {
    EndsAppend(left, right);
    ConcatInVisitOrder(Ends(left), Ends(right));
  }

  /** Every line of a row starts at the row's particle and ends below the row's cut. */
  lemma RowStrokesInRow(dots: seq<Dot>, a: nat, b: nat)
    ensures forall k :: 0 <= k < |RowStrokes(dots, a, b)| ==>
      RowStrokes(dots, a, b)[k].a == a && RowStrokes(dots, a, b)[k].b < b
  {
    forall k | 0 <= k < |RowStrokes(dots, a, b)|
      ensures RowStrokes(dots, a, b)[k].a == a && RowStrokes(dots, a, b)[k].b < b
    {
      RowStrokesHas(dots, a, b, RowStrokes(dots, a, b)[k]);
    }
  }

  /** Every line drawn by the first `a` rows starts at a particle below `a`. */
  lemma StrokesBeforeRowsBelow(dots: seq<Dot>, a: nat)
    ensures forall k :: 0 <= k < |StrokesBefore(dots, a)| ==> StrokesBefore(dots, a)[k].a < a
  {
    forall k | 0 <= k < |StrokesBefore(dots, a)|
      ensures StrokesBefore(dots, a)[k].a < a
    {
      StrokesBeforeHas(dots, a, StrokesBefore(dots, a)[k]);
    }
  }

  /** The line of the pair `(a, b)`, if any, comes after the lines the row drew before it. */
  lemma PairAfterRow(dots: seq<Dot>, a: nat, b: nat)
    ensures forall i, j :: 0 <= i < |RowStrokes(dots, a, b)| && 0 <= j < |StrokeIf(dots, (a, b))| ==>
      Before(Ends(RowStrokes(dots, a, b))[i], Ends(StrokeIf(dots, (a, b)))[j])
  {
    RowStrokesInRow(dots, a, b);
  }

  lemma {:induction false} RowStrokesOrdered(dots: seq<Dot>, a: nat, b: nat)
    ensures InVisitOrder(Ends(RowStrokes(dots, a, b)))
  {
    if b > a {
      var left, last := RowStrokes(dots, a, b - 1), StrokeIf(dots, (a, b - 1));
      assert InVisitOrder(Ends(left)) by {
        RowStrokesOrdered(dots, a, b - 1);
      }
      PairAfterRow(dots, a, b - 1);
      assert RowStrokes(dots, a, b) == left + last;
      AppendInVisitOrder(left, last);
    }
  }

  /** Every line of row `a` comes after every line of the rows before it. */
  lemma RowAfterEarlierRows(dots: seq<Dot>, a: nat)
    ensures forall i, j :: 0 <= i < |StrokesBefore(dots, a)| && 0 <= j < |RowStrokes(dots, a, |dots|)| ==>
      Before(Ends(StrokesBefore(dots, a))[i], Ends(RowStrokes(dots, a, |dots|))[j])
  {
    StrokesBeforeRowsBelow(dots, a);
    RowStrokesInRow(dots, a, |dots|);
  }

  lemma {:induction false} StrokesBeforeOrdered(dots: seq<Dot>, a: nat)
    ensures InVisitOrder(Ends(StrokesBefore(dots, a)))
  {
    if a > 0 {
      var left, row := StrokesBefore(dots, a - 1), RowStrokes(dots, a - 1, |dots|);
      assert InVisitOrder(Ends(left)) by {
        StrokesBeforeOrdered(dots, a - 1);
      }
      assert InVisitOrder(Ends(row)) by {
        RowStrokesOrdered(dots, a - 1, |dots|);
      }
      RowAfterEarlierRows(dots, a - 1);
      assert StrokesBefore(dots, a) == left + row;
      AppendInVisitOrder(left, row);
    }
  }

  /** The lines are drawn in the order the loop visits pairs, so no pair gets two lines. */
  lemma ConnectionsInVisitOrder(dots: seq<Dot>)
    ensures InVisitOrder(Ends(Connections(dots)))
    ensures forall i, j :: 0 <= i < j < |Connections(dots)| ==> Connections(dots)[i] != Connections(dots)[j]
  {
    StrokesBeforeOrdered(dots, |dots|);
  }

  /** Every particle is joined to itself by a line of length zero. */
  lemma SelfPairsDrawn(dots: seq<Dot>, a: nat)
    requires a < |dots|
    ensures Stroke(a, a, 0.0) in Connections(dots)
  {
    assert Dist2(dots[a], dots[a]) == 0.0;
    ConnectionsExactly(dots, Stroke(a, a, 0.0));
  }

  /** Visiting the pair `(a, b)` appends its line, if any, to the lines of the row so far. */
  lemma VisitPair(dots: seq<Dot>, a: nat, b: nat, d2: real)
    requires a <= b < |dots|
    requires d2 == Dist2(dots[a], dots[b])
    ensures RowStrokes(dots, a, b + 1) ==
            RowStrokes(dots, a, b) + (if d2 < MaxDistanceSquared then [Stroke(a, b, d2)] else [])
  {
  }

  /** The moving particles, with the canvas size they wrap against. */
  class ParticleField {
    var width: nat
    var height: nat
    /** `numberOfParticles`: computed once from the canvas size when the field is set up. */
    const count: nat
    var particles: seq<Particle>

    ghost function Footprint(): set<Particle>
      reads this
    {
      set p | p in particles
    }

    /** No particle object appears twice in the array. */
    ghost predicate Valid()
      reads this
    {
      forall i, j :: 0 <= i < j < |particles| ==> particles[i] != particles[j]
    }

    ghost function Dots(): (dots: seq<Dot>)
      reads this, Footprint()
      ensures |dots| == |particles|
      ensures forall k :: 0 <= k < |particles| ==> dots[k] == particles[k].View()
    {
      seq(|particles|, i reads this, Footprint() requires 0 <= i < |particles| => particles[i].View())
    }

    constructor (width: nat, height: nat)
      ensures Valid()
      ensures this.width == width && this.height == height
      ensures count == ParticleCount(width, height)
      ensures particles == []
    {
      this.width := width;
      this.height := height;
      count := ParticleCount(width, height);
      particles := [];
    }

    /** The canvas was resized: later moves wrap against the new size; the particle count stays. */
    method Resize(width: nat, height: nat)
      modifies this`width, this`height
      ensures this.width == width && this.height == height
    {
      this.width := width;
      this.height := height;
    }

    /**
     * `init`: empty the array, then push `count` new particles. Whatever the array
     * held before, it holds exactly `count` particles afterwards.
     */
    method Init(theme: Option<string>, prefersDark: bool, draws: seq<Draws>)
      requires |draws| == count
      requires forall k :: 0 <= k < |draws| ==> Random(draws[k])
      modifies this`particles
      ensures Valid()
      ensures |particles| == count
      ensures forall k :: 0 <= k < count ==> fresh(particles[k])
      ensures forall k :: 0 <= k < count ==>
        particles[k].View() == Spawn(width, height, IsDark(theme, prefersDark), draws[k])
    {
      var isDark := theme == Some("dark") || (theme == Some("system") && prefersDark);
      particles := [];
      for i := 0 to count
        invariant |particles| == i
        invariant forall j, k :: 0 <= j < k < i ==> particles[j] != particles[k]
        invariant forall k :: 0 <= k < i ==> fresh(particles[k])
        invariant forall k :: 0 <= k < i ==> particles[k].View() == Spawn(width, height, isDark, draws[k])
      {
        var p := new Particle(width, height, isDark, draws[i]);
        particles := particles + [p];
      }
    }

    /** The first half of a frame: each particle in turn is moved, then drawn. */
    method UpdateAndDraw() returns (circles: seq<Circle>)
      requires Valid()
      modifies Footprint()
      ensures |Dots()| == |old(Dots())|
      ensures forall i :: 0 <= i < |particles| ==> Dots()[i] == Step(old(Dots())[i], width, height)
      ensures |circles| == |particles|
      ensures forall i :: 0 <= i < |particles| ==> circles[i] == CircleOf(Dots()[i])
    {
      circles := [];
      for i := 0 to |particles|
        invariant |circles| == i
        invariant forall j :: 0 <= j < i ==> particles[j].View() == Step(old(particles[j].View()), width, height)
        invariant forall j :: i <= j < |particles| ==> particles[j].View() == old(particles[j].View())
        invariant forall j :: 0 <= j < i ==> circles[j] == CircleOf(particles[j].View())
      {
        particles[i].Update(width, height);
        circles := circles + [CircleOf(particles[i].View())];
      }
    }

    /** One row of `connectParticles`: the inner loop for `b` from `a` to the end of the array. */
    method ConnectRow(a: nat) returns (row: seq<Stroke>, ghost rowVisited: seq<(nat, nat)>)
      requires a <= |particles|
      ensures row == RowStrokes(Dots(), a, |particles|)
      ensures rowVisited == RowPairs(a, |particles|)
    {
      var n := |particles|;
      ghost var dots := Dots();
      row := [];
      rowVisited := [];
      for b := a to n
        invariant row == RowStrokes(dots, a, b)
        invariant rowVisited == RowPairs(a, b)
      {
        RowPairsExtend(a, b);
        rowVisited := rowVisited + [(a, b)];
        var dx := particles[a].x - particles[b].x;
        var dy := particles[a].y - particles[b].y;
        var d2 := SumOfSquares(dx, dy);
        assert dots[a] == particles[a].View() && dots[b] == particles[b].View();
        Dist2ByDeltas(dots[a], dots[b], dx, dy);
        VisitPair(dots, a, b, d2);
        if d2 < MaxDistanceSquared {
          row := row + [Stroke(a, b, d2)];
        }
      }
      assert dots == Dots();
    }

    /** `connectParticles`: the nested loop over `a <= b`, drawing a line for every close pair. */
    method ConnectParticles() returns (strokes: seq<Stroke>, ghost visited: seq<(nat, nat)>)
      ensures strokes == Connections(Dots())
      ensures visited == Pairs(|particles|)
    {
      var n := |particles|;
      ghost var dots := Dots();
      strokes := [];
      visited := [];
      for a := 0 to n
        invariant strokes == StrokesBefore(dots, a)
        invariant visited == PairsBefore(a, n)
      {
        var row;
        ghost var rowVisited;
        row, rowVisited := ConnectRow(a);
        assert row == RowStrokes(dots, a, n) by {
          assert dots == Dots();
        }
        strokes := strokes + row;
        visited := visited + rowVisited;
      }
      assert dots == Dots();
    }

    /** One animation frame: move and draw every particle, then connect the moved particles. */
    method Frame() returns (circles: seq<Circle>, strokes: seq<Stroke>)
      requires Valid()
      modifies Footprint()
      ensures forall i :: 0 <= i < |particles| ==> Dots()[i] == Step(old(Dots())[i], width, height)
      ensures |circles| == |particles|
      ensures forall i :: 0 <= i < |particles| ==> circles[i] == CircleOf(Dots()[i])
      ensures strokes == Connections(Dots())
    {
      circles := UpdateAndDraw();
      ghost var visited;
      strokes, visited := ConnectParticles();
    }
  }
}
