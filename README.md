# Air-writing gesture painter: model of the drawing core

This project models the per-tick core of a gesture painter. A hand detector
reports 21 landmark points per frame. `HandTracker.fingers_up` turns them
into a five-entry finger vector. The main loop maps that vector to a mode
(Drawing, Selection, Erasing, Clearing, Standby, or "No Hand Detected" when
no landmarks come in) and drives the `DrawingEngine` from the result. The
engine smooths the index tip with an exponential moving average (EMA) and
draws stroke segments on a persistent canvas. It also keeps an undo history
of at most 30 full canvas snapshots, evicting the oldest first, and can
clear the canvas.

Files and modules:

- `common.dfy` (`Common`): `Option`, integer `Point`, BGR `Color`.
- `config.dfy` (`Config`): the configuration constants. These are the
  palette of six colours, thickness 8, eraser thickness 50, EMA weight 0.6
  and panel height 100.
- `hand_tracking.dfy` (`HandTracking`): the tip table, the finger-vector
  function `Fingers`, and the method `FingersUp` with the source's append
  loop.
- `drawing_engine.dfy` (`Engine`): the class `DrawingEngine` with the
  source's fields and methods, plus the value-level functions its methods
  are proved against (`Ema`, `StrokeLines`, `Pushed`) and their lemmas.
- `main.dfy` (`App`): the `Mode` datatype with its literal labels, the
  classifier, the palette hit test, and the class `Session`. A `Session`
  holds the engine, `active_mode` and `curr_color_idx`. `Session.Step` is
  one pass of the main loop's gesture logic and keeps the palette loop.
  `Session.UndoCommand` is the undo key.

Modelling choices:

- The canvas is a value: the `cv2.line` calls made on the buffer since it
  was last zeroed (at construction or by `clear_canvas`), in order (`Canvas(lines)`, with `Blank` for the
  zeroed buffer). Drawing a line appends one entry. A history snapshot is
  a value, so a later change to the canvas cannot reach it, just as with
  `canvas.copy()` in the source.
- EMA coordinates are exact rationals (`real`) with alpha = 0.6 exactly.
  Python's `int()` is truncation toward zero (`Trunc`), not rounding.
- Each of `prev_x/prev_y` and `ema_x/ema_y` is one `Option`. The source
  always sets and clears the two coordinates together.
- `active_mode` is a `Mode`. `Label` gives the exact strings main.py
  stores, and `LabelInjective` shows that comparing the labels, as main.py
  does, is the same as comparing the modes.
- `thickness // 2` is Dafny's `/`. The divisor is positive, so this agrees
  with Python's floor division for every thickness.

Two facts about the code that the model keeps:

- `smooth_point` returns `int()` of the EMA point, which truncates toward
  zero (drawing_engine.py:36).
- main.py tests `if lm_list:` before classifying (main.py:40, 103-104), so
  an empty list gives "No Hand Detected" even though `fingers_up` returns
  all zeros for it (hand_tracking.py:45-46).

## Model

| member | source | states |
|---|---|---|
| `HandTracking.Fingers` | hand_tracking.py:39-63 | The result is always five 0/1 entries. An empty list gives all zeros. Entry 0 is 1 iff the thumb tip's x exceeds landmark 3's x. Entry i (1..4) is 1 iff tip `TipIds[i]` lies above landmark `TipIds[i]-2`. |
| `HandTracking.FingersReadOnlyJoints` | hand_tracking.py:51-61 | Two landmark lists that agree on indices 3, 4, 6, 8, 10, 12, 14, 16, 18 and 20 get the same vector, so no other landmark is read. |
| `HandTracking.FingersUp` | hand_tracking.py:39-63 | The thumb-then-loop construction returns exactly `Fingers(lm)`. It requires an empty list or at least 21 landmarks. |
| `Engine.Trunc` | drawing_engine.py:36 | `int()` truncates toward zero: for r >= 0, n <= r < n+1; for r < 0, n-1 < r <= n. |
| `Engine.TruncOfInt` | drawing_engine.py:36 | Truncating an integer value returns that integer. |
| `Engine.ToPixel` | drawing_engine.py:36 | `int()` on each coordinate of the EMA point: each pixel coordinate has magnitude at most the EMA coordinate's and within 1 of it, and it is negative only when the EMA coordinate is and never positive when the EMA coordinate is negative, so `int()` is pinned on both signs. |
| `Engine.Paint` | drawing_engine.py:44-55 | Drawing lines on a canvas grows its line log by exactly the number of lines drawn. |
| `Engine.PaintKeepsEarlierLines` | drawing_engine.py:44-55 | Drawing keeps every earlier line in place and puts the new lines after them, in order. |
| `Engine.Ema` | drawing_engine.py:31-35 | With no EMA point, the new EMA point is the raw sample itself. |
| `Engine.FirstSampleIsRaw` | drawing_engine.py:29-36 | After a reset, the smoothed point returned equals the raw point (no lag). |
| `Engine.EmaBetween` | drawing_engine.py:33-35 | For 0 < alpha <= 1, each new EMA coordinate lies between the old EMA and the raw sample. |
| `Engine.EmaApproaches` | drawing_engine.py:33-35 | The distance from the EMA to the sample shrinks by exactly the factor 1 - alpha on each axis. |
| `Engine.EmaExample` | drawing_engine.py:29-36 | At alpha 0.6, (100,100) then (200,100) smooth to (100,100) then (160,100). |
| `Engine.StrokeLines` | drawing_engine.py:42-55 | Without a previous point there are no lines. When erasing there is one line from prev to the smoothed point, black, at eraser width. Otherwise there are two such lines in order: the active colour at thickness+4, then white at thickness // 2. |
| `Engine.Pushed` | drawing_engine.py:60-64 | A save never takes a history within capacity past capacity. It grows by one below capacity and keeps its length at capacity. Its last entry is the saved canvas. |
| `Engine.PushedIsNewest` | drawing_engine.py:60-64 | One save on a history within capacity keeps exactly the newest `cap` of old history + [canvas], so only index 0 is ever evicted. |
| `Engine.PushAllKeepsNewest` | drawing_engine.py:60-64 | Any number of saves starting within capacity leave exactly the most recent `cap` snapshots, oldest first (FIFO eviction). |
| `Engine.ThirtyFirstSaveEvictsOldest` | drawing_engine.py:60-64 | 31 saves from empty at capacity 30 leave snapshots 2..31. The last entry, which undo restores, is snapshot 31. |
| `Engine.SaveThenUndo` | drawing_engine.py:60-71 | Below capacity, saving and then taking the last entry gives back the saved canvas and the previous history. |
| `Engine.DrawingEngine.constructor` | drawing_engine.py:7-27 | Blank canvas, empty history, no tracking state. Alpha 0.6, first palette colour, thickness 8, eraser thickness 50, capacity 30. |
| `Engine.DrawingEngine.SmoothPoint` | drawing_engine.py:29-36 | The EMA field becomes `Ema(old ema, p, alpha)`. The returned point is its truncation. Nothing else changes (frame `this`ema`). |
| `Engine.DrawingEngine.DrawLine` | drawing_engine.py:44-55 | One `cv2.line` call (the eraser line at 44-45, the outer line at 49-50, the core at 54-55) appends exactly one line, with the given ends, colour and width, to the canvas. |
| `Engine.DrawingEngine.Draw` | drawing_engine.py:38-58 | The EMA advances and the canvas gains exactly `StrokeLines(old prev, s, is_erasing, ...)`. The previous point becomes the smoothed point s, which is returned. |
| `Engine.DrawingEngine.SaveToHistory` | drawing_engine.py:60-64 | The history becomes `Pushed(old history, canvas, 30)`. The bound of 30 is kept and canvas and tracking are untouched. |
| `Engine.DrawingEngine.Undo` | drawing_engine.py:66-71 | On an empty history it returns false and changes nothing. Otherwise it returns true, the canvas becomes the last entry, and the history loses exactly that entry. |
| `Engine.DrawingEngine.ResetTracking` | drawing_engine.py:73-76 | The previous point and the EMA point become unset. Nothing else changes. |
| `Engine.DrawingEngine.ClearCanvas` | drawing_engine.py:78-82 | The pre-clear canvas is saved under the same FIFO rule. The canvas becomes blank and both tracking points become unset. |
| `App.Label` | main.py:48-104 | The literal strings main.py stores in `active_mode` (lines 48, 59, 81, 91, 98, 104); "No Hand Detected" is the label of exactly the no-hand mode. |
| `App.LabelInjective` | main.py:45-104 | Two modes have the same label iff they are the same mode. |
| `App.SumZero` | main.py:78 | A list of non-negative entries has sum 0 iff every entry is 0. |
| `App.AllDownIffSumZero` | main.py:78 | For a finger vector, `sum(fingers) == 0` holds exactly for [0,0,0,0,0]. |
| `App.Sum` | main.py:78 | Python's `sum`: a list of 0/1 entries sums to a value between 0 and its length. |
| `App.Classify` | main.py:45-99 | First match wins. Drawing iff [0,1,0,0,0]. Selection iff [0,1,1,0,0]. Clearing iff [1,1,1,1,1]. On 0/1 vectors, Erasing iff all zero and Standby iff none of the four patterns. The result is never "No Hand Detected". |
| `App.ModeOf` | main.py:40-104 | The tick's mode is "No Hand Detected" exactly when the landmark list is empty (`if lm_list:` at line 40, `else` at 103-104); otherwise it is the classification of `fingers_up`. |
| `App.Saves` | main.py:45-92 | A tick saves a snapshot only in Drawing, Erasing or Clearing (the save inside `clear_canvas`, drawing_engine.py:80). In Drawing or Erasing it saves exactly when the previous tick's mode was different (lines 46-48, 79-81). |
| `App.Hits` | main.py:70-71 | x is over swatch i when it lies strictly within 30 pixels of the centre `x_btn` = 50 + 100·i (`ButtonX`); a hit on one of the six swatches needs 20 < x < 580. |
| `App.ButtonsDisjoint` | main.py:69-73 | No x lies within 30 pixels of two swatch centres, so the palette loop can select at most one index. |
| `App.Session.constructor` | main.py:18-20 | The mode is "Standby" and the palette index is 0, with the engine colour `COLORS[0]` and a fresh engine. |
| `App.Session.Step` | main.py:40-105 | The mode is computed as `ModeOf(lm)`. A snapshot is saved only on entry into Drawing or Erasing from another mode, and on every Clearing tick. Drawing/Erasing ticks draw `StrokeLines` from lm[8], erasing only in Erasing. Every other tick leaves tracking unset. Clearing blanks the canvas. Selection above the panel's lower edge over a swatch selects that swatch. Otherwise the index and colour are unchanged, and the index stays in range with the colour equal to `COLORS[idx]`. |
| `App.Session.UndoCommand` | main.py:121-122 | Delegates to the engine's undo and ignores its result. An empty history changes nothing. Tracking and colour are untouched. |
| `App.DrawTwiceScenario` | main.py:40-56 | Two index-only ticks from start save one snapshot and leave two lines on the canvas: the outer line in `COLORS[0]` at thickness + 4, then the white core at thickness // 2. |
| `App.PauseScenario` | main.py:40-105 | Drawing, then a Standby pose, then drawing again saves two snapshots and draws no line: the pause resets the stroke. |

## Left out

- camera.py: frame acquisition is I/O. `Session.Step` is one iteration of the main loop, and the loop's end on a missing frame is not modelled.
- `HandTracker.find_hand` and `get_landmarks`: detector calls and float-to-pixel conversion are external. The landmark list is an input to `Step`. The tracker's detector state is not modelled, so `FingersUp` is a module-level method and `tip_ids` the constant `TipIds`.
- Pixel rasterisation inside `cv2.line` (anti-aliasing, line geometry): a line call is recorded as an entry on the canvas value instead. Two canvases with the same pixels but different line logs are different values here.
- In-place update and aliasing of the canvas buffer (`canvas[:] = 0`, the array that `undo` moves out of the history): the canvas is a value. This is safe because the source never lets a canvas and a history entry share a buffer.
- `apply_neon_glow`: Gaussian blur, float-weighted blending, thresholding and masking are library and floating-point code.
- `draw_ui` and all cursor, text and selection-highlight overlays in main.py are rendering only. This includes the line to landmark 12.
- `cv2.imshow`, `cv2.waitKey`, the quit key, `cv2.imwrite` and the snapshot timestamp are display, keyboard and file I/O. Only the undo key is modelled.
- Engine.Ema: IEEE double rounding of the EMA is not modelled. Values are exact rationals, so a truncation that a float error would push across an integer can differ.
- `preview_canvas`, `curr_x/curr_y` and `THICKNESS_OPTIONS` are never read. `CanvasWidth`/`CanvasHeight` are constants only, because a canvas value has no pixel grid.
- Landmark lists with 1 to 20 entries make the source raise an index error. `FingersUp` and `Step` require an empty list or at least 21 landmarks.
- Coordinates are not clamped, as in the source. Any integer point is accepted.
