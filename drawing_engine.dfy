/**
 * The drawing engine of drawing_engine.py: stroke smoothing, stroke emission,
 * the bounded undo history and the canvas reset.
 *
 * The canvas is modelled by what was drawn on it: the line calls made on
 * the buffer since it was last zeroed (at construction or by clear_canvas).
 * Rasterising a line into pixels is
 * not modelled; two canvases are equal here when the same lines were drawn
 * on them in the same order.
 */
module Engine {
  import opened Common
  import Config

  /** A point with exact rational coordinates: the running EMA. */
  datatype RealPoint = RealPoint(x: real, y: real)

  /** One cv2.line call: the segment, its colour and its width. */
  datatype Line = Line(from: Point, to: Point, color: Color, width: int)

  /** A canvas as the lines drawn onto the buffer since it was last zeroed. */
  datatype Canvas = Canvas(lines: seq<Line>)

  /** The all-zero canvas. */
  const Blank: Canvas := Canvas([])

  const Black: Color := Color(0, 0, 0)
  const White: Color := Color(255, 255, 255)

  /** The canvas after drawing lines ls on c, in order. */
  function Paint(c: Canvas, ls: seq<Line>): (r: Canvas)
    ensures |r.lines| == |c.lines| + |ls|
  {
    Canvas(c.lines + ls)
  }

  /** Drawing never removes or reorders what is already on the canvas. */
  lemma PaintKeepsEarlierLines(c: Canvas, ls: seq<Line>)
    ensures Paint(c, ls).lines[..|c.lines|] == c.lines
    ensures Paint(c, ls).lines[|c.lines|..] == ls
  {
  }

  /** Python's int() on a number: truncation toward zero. */
  function Trunc(r: real): (n: int)
    ensures 0.0 <= r ==> n as real <= r < n as real + 1.0
    ensures r < 0.0 ==> n as real - 1.0 < r <= n as real
  {
    if r >= 0.0 then r.Floor else -((-r).Floor)
  }

  lemma TruncOfInt(n: int)
    ensures Trunc(n as real) == n
  {
  }

  /**
   * The EMA point after sample p: the sample itself when there is no EMA
   * point yet, otherwise alpha * p + (1 - alpha) * ema on each axis.
   */
  function Ema(ema: Option<RealPoint>, p: Point, alpha: real): (e: RealPoint)
    ensures ema.None? ==> e.x == p.x as real && e.y == p.y as real
  {
    match ema
    case None => RealPoint(p.x as real, p.y as real)
    case Some(q) =>
      RealPoint(alpha * p.x as real + (1.0 - alpha) * q.x,
                alpha * p.y as real + (1.0 - alpha) * q.y)
  }

  function Abs(r: real): real {
    if r < 0.0 then -r else r
  }

  /** The integer point smooth_point returns for an EMA point. */
  function ToPixel(e: RealPoint): (p: Point)
    ensures Abs(p.x as real) <= Abs(e.x) < Abs(p.x as real) + 1.0
    ensures Abs(p.y as real) <= Abs(e.y) < Abs(p.y as real) + 1.0
    ensures (p.x < 0 ==> e.x < 0.0) && (p.y < 0 ==> e.y < 0.0)
    ensures (e.x < 0.0 ==> p.x <= 0) && (e.y < 0.0 ==> p.y <= 0)
  {
    Point(Trunc(e.x), Trunc(e.y))
  }

  /** Right after a reset the smoothed point is the raw point: no lag. */
  lemma FirstSampleIsRaw(p: Point, alpha: real)
    ensures ToPixel(Ema(None, p, alpha)) == p
  {
    TruncOfInt(p.x);
    TruncOfInt(p.y);
  }

  /** The new EMA lies between the old EMA and the sample, on each axis. */
  lemma EmaBetween(q: RealPoint, p: Point, alpha: real)
    requires 0.0 < alpha <= 1.0
    ensures var e := Ema(Some(q), p, alpha);
      Between(e.x, q.x, p.x as real) && Between(e.y, q.y, p.y as real)
  {
    var e := Ema(Some(q), p, alpha);
    BlendBetween(q.x, p.x as real, alpha);
    BlendBetween(q.y, p.y as real, alpha);
  }

  /** The distance to the sample shrinks by the factor 1 - alpha on each axis. */
  lemma EmaApproaches(q: RealPoint, p: Point, alpha: real)
    ensures var e := Ema(Some(q), p, alpha);
      e.x - p.x as real == (1.0 - alpha) * (q.x - p.x as real) &&
      e.y - p.y as real == (1.0 - alpha) * (q.y - p.y as real)
  {
  }

  ghost predicate Between(v: real, a: real, b: real) {
    (a <= v <= b) || (b <= v <= a)
  }

  lemma BlendBetween(a: real, b: real, alpha: real)
    requires 0.0 < alpha <= 1.0
    ensures Between(alpha * b + (1.0 - alpha) * a, a, b)
  {
    var v := alpha * b + (1.0 - alpha) * a;
    if a <= b {
      MulNonneg(alpha, b - a);
      MulNonneg(1.0 - alpha, b - a);
      assert v - a == alpha * (b - a) && b - v == (1.0 - alpha) * (b - a);
    } else {
      MulNonneg(alpha, a - b);
      MulNonneg(1.0 - alpha, a - b);
      assert a - v == alpha * (a - b) && v - b == (1.0 - alpha) * (a - b);
    }
  }

  lemma MulNonneg(x: real, y: real)
    requires 0.0 <= x && 0.0 <= y
    ensures 0.0 <= x * y
  {
  }

  /** At alpha 0.6, samples (100,100) then (200,100) smooth to (100,100) then (160,100). */
  lemma EmaExample()
    ensures ToPixel(Ema(None, Point(100, 100), Config.EmaAlpha)) == Point(100, 100)
    ensures ToPixel(Ema(Some(Ema(None, Point(100, 100), Config.EmaAlpha)), Point(200, 100), Config.EmaAlpha))
            == Point(160, 100)
  {
    FirstSampleIsRaw(Point(100, 100), Config.EmaAlpha);
    assert Ema(Some(RealPoint(100.0, 100.0)), Point(200, 100), Config.EmaAlpha) == RealPoint(160.0, 100.0);
    TruncOfInt(160);
    TruncOfInt(100);
  }

  /**
   * The lines one draw call emits, given the previous smoothed point and the
   * new one: none on the first sample, one background-coloured line when
   * erasing, and otherwise the coloured outer line followed by the white core.
   */
  function StrokeLines(prev: Option<Point>, s: Point, erasing: bool, color: Color,
                       thickness: int, eraserThickness: int): (ls: seq<Line>)
    ensures |ls| == if prev.None? then 0 else if erasing then 1 else 2
    ensures forall k :: 0 <= k < |ls| ==> ls[k].from == prev.value && ls[k].to == s
    ensures erasing && |ls| == 1 ==> ls[0].color == Black && ls[0].width == eraserThickness
    ensures !erasing && |ls| == 2 ==>
      ls[0].color == color && ls[0].width == thickness + 4 &&
      ls[1].color == White && ls[1].width == thickness / 2
  {
    match prev
    case None => []
    case Some(q) =>
      if erasing then [Line(q, s, Black, eraserThickness)]
      else [Line(q, s, color, thickness + 4), Line(q, s, White, thickness / 2)]
  }

  /**
   * The history after save_to_history with the canvas c: at capacity the
   * oldest entry is dropped, then c is appended.
   */
  function Pushed(h: seq<Canvas>, c: Canvas, cap: nat): (r: seq<Canvas>)
    requires 0 < cap
    ensures |r| == if |h| >= cap then |h| else |h| + 1
    ensures |h| <= cap ==> |r| <= cap
    ensures r[|r| - 1] == c
  {
    if |h| >= cap then h[1..] + [c] else h + [c]
  }

  /** The history after saving the canvases cs one after another. */
  function PushAll(h: seq<Canvas>, cs: seq<Canvas>, cap: nat): seq<Canvas>
    requires 0 < cap
    decreases |cs|
  {
    if cs == [] then h else PushAll(Pushed(h, cs[0], cap), cs[1..], cap)
  }

  /** The last n entries of s, or all of s when it is shorter. */
  function Newest(s: seq<Canvas>, n: nat): (r: seq<Canvas>)
    ensures |r| == if |s| < n then |s| else n
  {
    if |s| <= n then s else s[|s| - n..]
  }

  /** One save within capacity keeps the most recent cap snapshots. */
  lemma PushedIsNewest(h: seq<Canvas>, c: Canvas, cap: nat)
    requires 0 < cap && |h| <= cap
    ensures Pushed(h, c, cap) == Newest(h + [c], cap)
  {
    if |h| == cap {
      assert h[1..] + [c] == (h + [c])[1..];
    }
  }

  /** A history within capacity keeps exactly the most recent cap snapshots. */
  lemma {:induction false} PushAllKeepsNewest(h: seq<Canvas>, cs: seq<Canvas>, cap: nat)
    requires 0 < cap && |h| <= cap
    ensures PushAll(h, cs, cap) == Newest(h + cs, cap)
    decreases |cs|
  {
    if cs == [] {
      assert h + cs == h;
    } else {
      var h1 := Pushed(h, cs[0], cap);
      assert PushAll(h, cs, cap) == Newest(h1 + cs[1..], cap) by {
        PushAllKeepsNewest(h1, cs[1..], cap);
      }
      assert h1 == Newest(h + [cs[0]], cap) by {
        PushedIsNewest(h, cs[0], cap);
      }
      assert Newest(h1 + cs[1..], cap) == Newest(h + cs, cap) by {
        NewestAppend(h + [cs[0]], cs[1..], cap);
        assert (h + [cs[0]]) + cs[1..] == h + cs;
      }
    }
  }

  lemma NewestAppend(s: seq<Canvas>, t: seq<Canvas>, n: nat)
    ensures Newest(Newest(s, n) + t, n) == Newest(s + t, n)
  {
    var u := Newest(s, n);
    assert u == s[|s| - |u|..];
    assert u + t == (s + t)[|s| - |u|..];
  }

  /** Thirty-one saves from empty: the first snapshot is evicted, the newest is last. */
  lemma ThirtyFirstSaveEvictsOldest(cs: seq<Canvas>)
    requires |cs| == 31
    ensures var h := PushAll([], cs, 30);
      |h| == 30 && h == cs[1..] && h[29] == cs[30]
  {
    PushAllKeepsNewest([], cs, 30);
    assert [] + cs == cs;
  }

  /** Below capacity, saving and then undoing returns both the canvas and the history. */
  lemma SaveThenUndo(h: seq<Canvas>, c: Canvas, cap: nat)
    requires 0 < cap && |h| < cap
    ensures var r := Pushed(h, c, cap);
      r != [] && r[|r| - 1] == c && r[..|r| - 1] == h
  {
  }

  class DrawingEngine {
    var canvas: Canvas
    /** The previous smoothed point (prev_x, prev_y). */
    var prev: Option<Point>
    /** The running EMA point (ema_x, ema_y). */
    var ema: Option<RealPoint>
    const alpha: real
    var color: Color
    const thickness: int
    const eraserThickness: int
    var history: seq<Canvas>
    const maxHistory: nat

    /** The history is bounded and a previous point never exists without an EMA point. */
    ghost predicate Valid()
      reads this
    {
      0.0 < alpha <= 1.0 && 0 < maxHistory && |history| <= maxHistory &&
      (prev.Some? ==> ema.Some?)
    }

    constructor ()
      ensures Valid()
      ensures canvas == Blank && history == [] && prev == None && ema == None
      ensures alpha == Config.EmaAlpha && color == Config.Colors[0]
      ensures thickness == Config.DefaultThickness && eraserThickness == Config.EraserThickness
      ensures maxHistory == 30
    {
      canvas := Blank;
      prev := None;
      ema := None;
      alpha := Config.EmaAlpha;
      color := Config.Colors[0];
      thickness := Config.DefaultThickness;
      eraserThickness := Config.EraserThickness;
      history := [];
      maxHistory := 30;
    }

    /** smooth_point: advances the EMA point and returns it truncated. */
    method SmoothPoint(p: Point) returns (s: Point)
      modifies this`ema
      ensures ema == Some(Ema(old(ema), p, alpha))
      ensures s == ToPixel(ema.value)
    {
      if ema.None? {
        ema := Some(RealPoint(p.x as real, p.y as real));
      } else {
        var q := ema.value;
        ema := Some(RealPoint(alpha * p.x as real + (1.0 - alpha) * q.x,
                              alpha * p.y as real + (1.0 - alpha) * q.y));
        assert ema.value == Ema(Some(q), p, alpha);
      }
      s := ToPixel(ema.value);
    }

    /** cv2.line on the canvas. */
    method DrawLine(from: Point, to: Point, c: Color, width: int)
      modifies this`canvas
      ensures canvas == Paint(old(canvas), [Line(from, to, c, width)])
    {
      canvas := Paint(canvas, [Line(from, to, c, width)]);
    }

    /**
     * draw: smooths p, draws from the previous smoothed point when there is
     * one, and makes the smoothed point the previous one.
     */
    method Draw(p: Point, isErasing: bool) returns (s: Point)
      requires Valid()
      modifies this`canvas, this`prev, this`ema
      ensures Valid()
      ensures ema == Some(Ema(old(ema), p, alpha)) && s == ToPixel(ema.value)
      ensures canvas == Paint(old(canvas), StrokeLines(old(prev), s, isErasing, color, thickness, eraserThickness))
      ensures prev == Some(s)
    {
      s := SmoothPoint(p);
      if prev.Some? {
        var q := prev.value;
        if isErasing {
          DrawLine(q, s, Black, eraserThickness);
        } else {
          DrawLine(q, s, color, thickness + 4);
          DrawLine(q, s, White, thickness / 2);
        }
      }
      prev := Some(s);
    }

    /** save_to_history: appends the current canvas, evicting the oldest entry at capacity. */
    method SaveToHistory()
      requires Valid()
      modifies this`history
      ensures Valid()
      ensures history == Pushed(old(history), canvas, maxHistory)
    {
      if |history| >= maxHistory {
        history := history[1..];
      }
      history := history + [canvas];
    }

    /** undo: restores the most recent snapshot, or reports that there is none. */
    method Undo() returns (ok: bool)
      requires Valid()
      modifies this`canvas, this`history
      ensures Valid()
      ensures ok <==> old(history) != []
      ensures ok ==> canvas == old(history)[|old(history)| - 1] &&
                     history == old(history)[..|old(history)| - 1]
      ensures !ok ==> canvas == old(canvas) && history == old(history)
    {
      if history != [] {
        canvas := history[|history| - 1];
        history := history[..|history| - 1];
        return true;
      }
      return false;
    }

    /** reset_tracking: forgets the previous point and the EMA point. */
    method ResetTracking()
      requires Valid()
      modifies this`prev, this`ema
      ensures Valid()
      ensures prev == None && ema == None
    {
      prev := None;
      ema := None;
    }

    /** clear_canvas: saves the canvas, blanks it and resets tracking. */
    method ClearCanvas()
      requires Valid()
      modifies this`canvas, this`history, this`prev, this`ema
      ensures Valid()
      ensures history == Pushed(old(history), old(canvas), maxHistory)
      ensures canvas == Blank && prev == None && ema == None
    {
      SaveToHistory();
      canvas := Blank;
      ResetTracking();
    }
  }
}
