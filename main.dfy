/**
 * The per-tick gesture dispatch of main.py: classify the finger vector into
 * a mode, drive the drawing engine, and pick palette colours in the panel.
 */
module App {
  import opened Common
  import Config
  import HandTracking
  import Engine

  /** The operating modes; Label gives the text main.py keeps in active_mode. */
  datatype Mode = Drawing | Selection | Erasing | Clearing | Standby | NoHand

  function Label(m: Mode): (s: string)
    ensures s == "No Hand Detected" <==> m == NoHand
  {
    match m
    case Drawing => "Drawing"
    case Selection => "Selection"
    case Erasing => "Erasing"
    case Clearing => "Clearing"
    case Standby => "Standby"
    case NoHand => "No Hand Detected"
  }

  /** Comparing labels, as main.py does, is comparing modes. */
  lemma LabelInjective(a: Mode, b: Mode)
    ensures Label(a) == Label(b) <==> a == b
  {
  }

  /** Python's sum over a list of integers. */
  function Sum(f: seq<int>): (r: int)
    ensures (forall i :: 0 <= i < |f| ==> 0 <= f[i] <= 1) ==> 0 <= r <= |f|
  {
    if f == [] then 0 else f[0] + Sum(f[1..])
  }

  /** A vector of non-negative entries sums to zero exactly when every entry is zero. */
  lemma {:induction false} SumZero(f: seq<int>)
    requires forall i :: 0 <= i < |f| ==> f[i] >= 0
    ensures Sum(f) >= 0
    ensures Sum(f) == 0 <==> forall i :: 0 <= i < |f| ==> f[i] == 0
  {
    if f != [] {
      SumZero(f[1..]);
      assert forall i :: 1 <= i < |f| ==> f[i] == f[1..][i - 1];
    }
  }

  /** For a finger vector, sum(fingers) == 0 is the all-down pattern. */
  lemma AllDownIffSumZero(f: seq<int>)
    ensures HandTracking.IsFingerVector(f) ==> (Sum(f) == 0 <==> f == [0, 0, 0, 0, 0])
  {
    if HandTracking.IsFingerVector(f) {
      SumZero(f);
      assert (forall i :: 0 <= i < |f| ==> f[i] == 0) <==> f == [0, 0, 0, 0, 0];
    }
  }

  /**
   * The mode of a finger vector: the first of the patterns index-only,
   * index-and-middle, all-down, all-up that matches, otherwise Standby.
   */
  function Classify(f: seq<int>): (m: Mode)
    ensures m != NoHand
    ensures m == Drawing <==> f == [0, 1, 0, 0, 0]
    ensures m == Selection <==> f == [0, 1, 1, 0, 0]
    ensures m == Clearing <==> f == [1, 1, 1, 1, 1]
    ensures HandTracking.IsFingerVector(f) ==> (m == Erasing <==> f == [0, 0, 0, 0, 0])
    ensures HandTracking.IsFingerVector(f) ==>
      (m == Standby <==> f !in {[0, 1, 0, 0, 0], [0, 1, 1, 0, 0], [0, 0, 0, 0, 0], [1, 1, 1, 1, 1]})
  {
    AllDownIffSumZero(f);
    assert Sum([1, 1, 1, 1, 1]) == 5;
    if f == [0, 1, 0, 0, 0] then Drawing
    else if f == [0, 1, 1, 0, 0] then Selection
    else if Sum(f) == 0 then Erasing
    else if f == [1, 1, 1, 1, 1] then Clearing
    else Standby
  }

  /** The mode of a tick: no hand when the landmark list is empty. */
  function ModeOf(lm: seq<Point>): (m: Mode)
    requires HandTracking.WellFormed(lm)
    ensures m == NoHand <==> lm == []
  {
    if lm == [] then NoHand else Classify(HandTracking.Fingers(lm))
  }

  /** The modes that draw a stroke segment. */
  predicate IsStroke(m: Mode) {
    m == Drawing || m == Erasing
  }

  /** Whether a tick in mode now, after a tick in mode before, saves a snapshot. */
  predicate Saves(before: Mode, now: Mode)
    ensures Saves(before, now) ==> IsStroke(now) || now == Clearing
    ensures IsStroke(now) ==> (Saves(before, now) <==> before != now)
  {
    (IsStroke(now) && before != now) || now == Clearing
  }

  /** The centre of palette swatch i in the top panel. */
  function ButtonX(i: int): int {
    50 + 100 * i
  }

  /** Whether x lies strictly within 30 pixels of swatch i's centre. */
  predicate Hits(i: int, x: int)
    ensures Hits(i, x) && 0 <= i < |Config.Colors| ==> 20 < x < 580
  {
    ButtonX(i) - 30 < x < ButtonX(i) + 30
  }

  /** No x is over two swatches, so the palette loop picks at most one index. */
  lemma ButtonsDisjoint(i: int, j: int, x: int)
    requires Hits(i, x) && Hits(j, x)
    ensures i == j
  {
  }

  /** Whether x is over one of the palette's swatches. */
  predicate OverPalette(x: int) {
    exists i :: 0 <= i < |Config.Colors| && Hits(i, x)
  }

  /** The state main.py keeps between ticks: the engine, the mode and the palette index. */
  class Session {
    const engine: Engine.DrawingEngine
    var activeMode: Mode
    var currColorIdx: int

    /** The palette index is in range and the engine draws in that colour. */
    ghost predicate Valid()
      reads this, engine
    {
      engine.Valid() &&
      0 <= currColorIdx < |Config.Colors| && engine.color == Config.Colors[currColorIdx]
    }

    constructor ()
      ensures Valid() && fresh(engine)
      ensures activeMode == Standby && currColorIdx == 0
      ensures engine.canvas == Engine.Blank && engine.history == []
      ensures engine.prev == None && engine.ema == None
      ensures engine.alpha == Config.EmaAlpha && engine.maxHistory == 30
      ensures engine.thickness == Config.DefaultThickness && engine.eraserThickness == Config.EraserThickness
    {
      engine := new Engine.DrawingEngine();
      currColorIdx := 0;
      activeMode := Standby;
      new;
      engine.color := Config.Colors[currColorIdx];
    }

    /** One pass of the main loop's gesture logic on the tick's landmarks. */
    method Step(lm: seq<Point>)
      requires Valid() && HandTracking.WellFormed(lm)
      modifies this, engine
      ensures Valid()
      ensures activeMode == ModeOf(lm)
      ensures engine.history ==
        if Saves(old(activeMode), activeMode)
        then Engine.Pushed(old(engine.history), old(engine.canvas), engine.maxHistory)
        else old(engine.history)
      ensures IsStroke(activeMode) ==>
        var e := Engine.Ema(old(engine.ema), lm[8], engine.alpha);
        var s := Engine.ToPixel(e);
        engine.ema == Some(e) && engine.prev == Some(s) &&
        engine.canvas == Engine.Paint(old(engine.canvas),
          Engine.StrokeLines(old(engine.prev), s, activeMode == Erasing,
                             engine.color, engine.thickness, engine.eraserThickness))
      ensures !IsStroke(activeMode) ==> engine.prev == None && engine.ema == None
      ensures activeMode == Clearing ==> engine.canvas == Engine.Blank
      ensures activeMode in {Selection, Standby, NoHand} ==> engine.canvas == old(engine.canvas)
      ensures activeMode == Selection && lm[8].y < Config.PanelHeight && OverPalette(lm[8].x) ==>
        Hits(currColorIdx, lm[8].x)
      ensures !(activeMode == Selection && lm[8].y < Config.PanelHeight && OverPalette(lm[8].x)) ==>
        currColorIdx == old(currColorIdx) && engine.color == old(engine.color)
    {
      var fingers := HandTracking.FingersUp(lm);
      if lm != [] {
        var p := lm[8];
        if fingers == [0, 1, 0, 0, 0] {
          if activeMode != Drawing {
            engine.SaveToHistory();
            activeMode := Drawing;
          }
          var s := engine.Draw(p, false);
        } else if fingers == [0, 1, 1, 0, 0] {
          activeMode := Selection;
          engine.ResetTracking();
          if p.y < Config.PanelHeight {
            for i := 0 to |Config.Colors|
              invariant engine.Valid()
              invariant 0 <= currColorIdx < |Config.Colors| && engine.color == Config.Colors[currColorIdx]
              invariant (exists j :: 0 <= j < i && Hits(j, p.x)) ==> Hits(currColorIdx, p.x)
              invariant !(exists j :: 0 <= j < i && Hits(j, p.x)) ==>
                currColorIdx == old(currColorIdx) && engine.color == old(engine.color)
              invariant engine.history == old(engine.history) && engine.canvas == old(engine.canvas)
              invariant engine.prev == None && engine.ema == None && activeMode == Selection
            {
              var xBtn := ButtonX(i);
              if xBtn - 30 < p.x < xBtn + 30 {
                assert Hits(i, p.x);
                currColorIdx := i;
                engine.color := Config.Colors[i];
              }
            }
          }
        } else if Sum(fingers) == 0 {
          if activeMode != Erasing {
            engine.SaveToHistory();
            activeMode := Erasing;
          }
          var s := engine.Draw(p, true);
        } else if fingers == [1, 1, 1, 1, 1] {
          activeMode := Clearing;
          engine.ClearCanvas();
          engine.ResetTracking();
        } else {
          activeMode := Standby;
          engine.ResetTracking();
        }
      } else {
        activeMode := NoHand;
        engine.ResetTracking();
      }
    }

    /** The undo key: delegates to the engine and ignores whether anything was restored. */
    method UndoCommand()
      requires Valid()
      modifies engine
      ensures Valid()
      ensures old(engine.history) == [] ==>
        engine.canvas == old(engine.canvas) && engine.history == old(engine.history)
      ensures old(engine.history) != [] ==>
        engine.canvas == old(engine.history)[|old(engine.history)| - 1] &&
        engine.history == old(engine.history)[..|old(engine.history)| - 1]
      ensures engine.prev == old(engine.prev) && engine.ema == old(engine.ema)
      ensures engine.color == old(engine.color)
    {
      var restored := engine.Undo();
    }
  }

  /**
   * Two index-only ticks from the initial state: the first saves one
   * snapshot and draws nothing, the second saves nothing and draws the outer
   * line in the first palette colour and then the white core.
   */
  method DrawTwiceScenario(draw: seq<Point>) returns (saved: nat, ls: seq<Engine.Line>)
    requires HandTracking.WellFormed(draw) && ModeOf(draw) == Drawing
    ensures saved == 1 && |ls| == 2
    ensures ls[0].color == Config.Colors[0] && ls[0].width == Config.DefaultThickness + 4
    ensures ls[1].color == Engine.White && ls[1].width == Config.DefaultThickness / 2
  {
    var session := new Session();
    session.Step(draw);
    assert |session.engine.history| == 1 && session.engine.canvas == Engine.Blank;
    session.Step(draw);
    saved := |session.engine.history|;
    ls := session.engine.canvas.lines;
  }

  /**
   * Drawing, pausing in another pose, drawing again: each entry into
   * Drawing saves a snapshot, and the first sample after the pause draws
   * nothing because the pause reset the stroke.
   */
  method PauseScenario(draw: seq<Point>, rest: seq<Point>) returns (saved: nat, drawn: nat)
    requires HandTracking.WellFormed(draw) && ModeOf(draw) == Drawing
    requires HandTracking.WellFormed(rest) && ModeOf(rest) == Standby
    ensures saved == 2 && drawn == 0
  {
    var session := new Session();
    session.Step(draw);
    assert |session.engine.history| == 1 && session.engine.canvas == Engine.Blank;
    session.Step(rest);
    assert |session.engine.history| == 1 && session.engine.canvas == Engine.Blank;
    assert session.engine.prev == None;
    session.Step(draw);
    saved := |session.engine.history|;
    drawn := |session.engine.canvas.lines|;
  }
}
