# TouchTracker drawing surface, modelled in Dafny

TouchTracker is a single iOS view, `DrawView`, on which the user draws line
segments with touches and then selects, moves and deletes them with gestures.
Under the UIKit plumbing the view keeps three fields:

- `linesInProgress`: the line each touch on the screen is currently drawing, keyed by the touch;
- `finishedLines`: the completed lines, earliest first;
- `selectedLine`: a weak reference to one finished line, or nil.

Every callback updates those fields:

- the four touch handlers create, extend, finish or discard the lines of a batch of touches;
- a double tap clears everything;
- a tap or a long press selects the first finished line near the point;
- a pan moves the selected line;
- the menu's Delete item removes the selected line through an `Array.remove(_:)` extension.

The model has these modules:

- `Wrappers`: the `Option` type that stands for Swift's optionals;
- `Geometry`: points, lines, the proximity test and translation;
- `ArrayRemove`: the `remove(_:)` extension, as a specification function and the method that implements it;
- `Touches`: what a batch of touch events does to the dictionary of lines in progress;
- `HitTest`: `lineAtPoint` as a specification function, with its properties;
- `DrawView`: the class `DrawBoard`. Its three fields are those of the view. Each callback is a method that updates them in place and keeps the invariant `Valid()`, which says that a selection designates a finished line;
- `Scenarios`: client methods of `DrawBoard`, gesture sequences the view supports, with what they leave behind.

Modelling decisions:

- `CGPoint` is a pair of exact reals. `hypot(dx, dy) < 20` is the squared test `dx*dx + dy*dy < 400`. `NearIffDistanceBelowRadius` proves the two tests agree.
- `Line` is declared outside DrawView.swift and is not modelled as written. From its use in DrawView.swift, it has a begin point and an end point, which are always set before they are read. It also has to be `Equatable`, because `remove(_:)` requires that. The model takes `Line` to be a record compared BY VALUE. If `Line` actually compares by identity, `deleteLine` always removes the selected line itself.
- The key `NSValue(nonretainedObject: touch)` becomes an integer `TouchId`. A `Set<UITouch>` batch becomes a sequence of touches with distinct ids. The sequence order stands for the order in which the handler's loop visits the set. That order decides the order in which `touchesEnded` appends lines.
- The weak `selectedLine` becomes `Option<nat>`, the position of the referenced line in `finishedLines`:
  - No other object holds a finished line, so the weak reference becomes nil exactly when its line leaves the list. That happens in `doubleTap`, and in `deleteLine` when the selected line itself is removed.
  - `remove(_:)` removes the first line EQUAL to the selected one. When an earlier line has the same value, that earlier line goes. The selected line then stays selected, one position lower. `DeleteLine` models both outcomes.
- A handler's UIKit inputs become method parameters: touch locations, `gr.location(in:)`, `gr.translation(in:)` and `gr.state`.
- The pan recognizer's translation is reset at line 139. `MoveLine` therefore returns the translation the recognizer holds after the call. That value is zero after a move. It is the unchanged input when nothing is selected or the pan is not in the changed phase, so the translation keeps accumulating in those cases.
- Two force unwraps become preconditions, because the source crashes when they fail. `TouchesEnded` requires every touch to be tracked (line 172). `DeleteLine` requires a selection (line 114).
- `lineAtPoint` samples the fractions of `stride(from: 0.0, to: 1.0, by: 0.5)`, which are only 0.0 and 0.5. The end point of a line is never tested. `EndPointAloneMisses` shows a line whose end lies exactly on the point and which still is not hit.

## Model

| member | source | states |
|---|---|---|
| Geometry.Dot | Swift/TouchTracker/DrawView.swift:149-151 | the fresh line a touch starts: it begins at the touch location and has zero length (`end - begin` is the zero vector) |
| Geometry.PointAt | Swift/TouchTracker/DrawView.swift:99-100 | the point at fraction t from begin towards end, `start + t * (end - start)` per coordinate; fraction 0 is the begin point |
| Geometry.Near | Swift/TouchTracker/DrawView.swift:102 | the proximity test `hypot(x - p.x, y - p.y) < 20.0` as the squared distance below 400; a point is always near itself |
| Geometry.NearIffDistanceBelowRadius | Swift/TouchTracker/DrawView.swift:102 | for the non-negative distance h with h*h = dx*dx + dy*dy, the squared test holds exactly when h < 20, so it agrees with `hypot(...) < 20.0` |
| Geometry.PointAtFractions | Swift/TouchTracker/DrawView.swift:99-100 | the sampled point at fraction 0 is the begin point, at fraction 1 the end point, and at 0.5 it lies halfway between them |
| Geometry.Translated | Swift/TouchTracker/DrawView.swift:127-135 | both ends move by exactly the translation, so the line's vector `end - begin` (its direction and length) is preserved |
| Geometry.TranslatedTwice | Swift/TouchTracker/DrawView.swift:125-139 | moving by d1 and then by d2 equals one move by d1 + d2, so per-sample deltas compose additively |
| Geometry.TranslatedByOrigin | Swift/TouchTracker/DrawView.swift:139 | a move by the reset translation (zero) leaves a line in place |
| ArrayRemove.FirstIndex | Swift/TouchTracker/DrawView.swift:7 | `index(of:)`: None exactly when no element equals x; otherwise a position holding x with no equal element before it |
| ArrayRemove.RemovedFirst | Swift/TouchTracker/DrawView.swift:6-10 | the array after `remove(x)`: the first element equal to x is cut out (length one less), and with no equal element the array is returned as it was |
| ArrayRemove.IndexOf | Swift/TouchTracker/DrawView.swift:7 | the front-to-back scan of `index(of:)` returns exactly the first position holding x, or None |
| ArrayRemove.Remove | Swift/TouchTracker/DrawView.swift:6-10 | `remove(_:)` returns the array without its first element equal to x, unchanged if there is none |
| ArrayRemove.RemovedFirstAbsent | Swift/TouchTracker/DrawView.swift:7-9 | with no equal element the array is unchanged |
| ArrayRemove.RemovedFirstPresent | Swift/TouchTracker/DrawView.swift:6-10 | with an equal element, the length drops by one, the part before the first equal element is kept and the part after it follows directly, in order |
| ArrayRemove.RemovedFirstMultiset | Swift/TouchTracker/DrawView.swift:6-10 | as a bag, removal takes away one occurrence of x and nothing else (none when x is absent) |
| ArrayRemove.RemovedFirstPositions | Swift/TouchTracker/DrawView.swift:8 | `remove(at:)` keeps the elements before the removed position in place and moves each later element down by one |
| ArrayRemove.RemovedFirstAt | Swift/TouchTracker/DrawView.swift:6-10 | when no earlier element equals s[i], removing s[i] deletes exactly position i |
| Touches.BeginAll | Swift/TouchTracker/DrawView.swift:147-154 | after `touchesBegan` the dictionary's keys are the old keys plus the batch's touch keys |
| Touches.BeginAllNew | Swift/TouchTracker/DrawView.swift:148-153 | every touch of a batch ends up with a zero-length line (begin == end == its location) under its key |
| Touches.BeginAllKeeps | Swift/TouchTracker/DrawView.swift:147-154 | keys the batch does not mention keep their lines |
| Touches.MoveAll | Swift/TouchTracker/DrawView.swift:160-164 | `touchesMoved` never adds or removes a key: untracked touches are ignored |
| Touches.MoveAllTracked | Swift/TouchTracker/DrawView.swift:161-163 | a tracked touch's line keeps its begin point and takes the touch location as its end |
| Touches.MoveAllKeeps | Swift/TouchTracker/DrawView.swift:160-164 | keys the batch does not mention keep their lines |
| Touches.EndedLines | Swift/TouchTracker/DrawView.swift:170-175 | `touchesEnded` appends one line per touch of the batch |
| Touches.EndedLinesAt | Swift/TouchTracker/DrawView.swift:171-173 | the i-th appended line is the in-progress line of the i-th touch |
| Touches.EndedConservesLines | Swift/TouchTracker/DrawView.swift:170-175 | ending tracked touches conserves the total number of lines across the dictionary and the finished list |
| HitTest.SampleFractions | Swift/TouchTracker/DrawView.swift:98 | the fractions visited by `stride(from: 0.0, to: 1.0, by: 0.5)`, namely 0.0 and 0.5, each in [0, 1) |
| HitTest.Hits | Swift/TouchTracker/DrawView.swift:98-106 | the inner loop's test: some sampled point of the line is near the point; a begin point near the point is always a hit |
| HitTest.SampleFractionsAreStride | Swift/TouchTracker/DrawView.swift:98 | the k-th sample is 0.0 + k * 0.5, and there is a sample for exactly those k with k * 0.5 below 1.0: the stride excludes 1.0 |
| HitTest.HitsIff | Swift/TouchTracker/DrawView.swift:98-106 | a line is hit exactly when its begin point or its midpoint is strictly within 20 of the point |
| HitTest.EndPointAloneMisses | Swift/TouchTracker/DrawView.swift:98 | a line whose end lies exactly on the point, with begin and midpoint far away, is not hit |
| HitTest.FirstHit | Swift/TouchTracker/DrawView.swift:93-110 | `lineAtPoint`: a position in `finishedLines` whose line is hit, with no hit before it; None exactly when no line is hit |
| HitTest.FirstHitIs | Swift/TouchTracker/DrawView.swift:93-110 | a hit at i with no hit before i is the answer of the scan |
| HitTest.EarlierLineWins | Swift/TouchTracker/DrawView.swift:94-105 | of two lines that are both hit, the one drawn earlier (or one before it) is returned |
| HitTest.FirstHitAppend | Swift/TouchTracker/DrawView.swift:173 | lines appended after the first hit do not change the hit test's answer |
| DrawView.DrawBoard.Valid | Swift/TouchTracker/DrawView.swift:21 | the weak `selectedLine`, as a position, designates a line currently in `finishedLines` (so a selection implies a non-empty list) |
| DrawView.DrawBoard.constructor | Swift/TouchTracker/DrawView.swift:19-21 | a new view has no lines in progress, no finished lines and no selection |
| DrawView.DrawBoard.LineAtPoint | Swift/TouchTracker/DrawView.swift:93-110 | the nested scan with early return yields exactly `FirstHit` of the finished lines |
| DrawView.DrawBoard.TouchesBegan | Swift/TouchTracker/DrawView.swift:145-156 | the dictionary becomes `BeginAll` of the old one; finished lines and selection are unchanged |
| DrawView.DrawBoard.TouchesMoved | Swift/TouchTracker/DrawView.swift:158-166 | the dictionary becomes `MoveAll` of the old one; finished lines and selection are unchanged |
| DrawView.DrawBoard.TouchesEnded | Swift/TouchTracker/DrawView.swift:168-177 | requires every touch to be tracked; the batch's lines are appended in order, their keys are removed, the selection is unchanged and the total line count is conserved |
| DrawView.DrawBoard.TouchesCancelled | Swift/TouchTracker/DrawView.swift:179-186 | the batch's keys are removed (absent ones ignored); finished lines and selection are unchanged |
| DrawView.DrawBoard.DoubleTap | Swift/TouchTracker/DrawView.swift:188-193 | both collections end empty and the weak selection lapses |
| DrawView.DrawBoard.Tap | Swift/TouchTracker/DrawView.swift:195-198 | the selection becomes the hit test's answer at the point; nothing else changes |
| DrawView.DrawBoard.LongPress | Swift/TouchTracker/DrawView.swift:213-227 | at began: the selection is the hit test's answer, and a hit empties the lines in progress; at ended: the selection is cleared; other phases change nothing; finished lines never change |
| DrawView.DrawBoard.MoveLine | Swift/TouchTracker/DrawView.swift:119-141 | with a selection, in the changed phase: only the selected line moves, by the translation, and the translation is reset to zero; otherwise nothing changes and the translation is kept |
| DrawView.DrawBoard.DeleteLine | Swift/TouchTracker/DrawView.swift:112-117 | requires a selection; the finished lines lose their first line equal to the selected one; the selection lapses if that was the selected line, otherwise it designates the same line one position lower |
| Scenarios.Draw | Swift/TouchTracker/DrawView.swift:145-177 | a touch that begins at one point, moves to another and ends appends the line between them and leaves the dictionary and selection as they were |
| Scenarios.DrawOneLine | Swift/TouchTracker/DrawView.swift:145-177 | begin at (0,0), move to (10,0), end: one finished line from (0,0) to (10,0) and no line in progress |
| Scenarios.TouchWithoutMoving | Swift/TouchTracker/DrawView.swift:145-177 | a touch that begins and ends without moving leaves a zero-length line at its location |
| Scenarios.TapOnOverlap | Swift/TouchTracker/DrawView.swift:195-198 | two finished lines are both hit at (5,5); tapping there selects the first drawn |
| Scenarios.DeleteOnlyLine | Swift/TouchTracker/DrawView.swift:112-117 | deleting the only line, once tapped, leaves no lines and no selection |
| Scenarios.LongPressDuringDrawing | Swift/TouchTracker/DrawView.swift:213-220 | a long press on a line while another touch is drawing discards that drawing and selects the line |
| Scenarios.PanInTwoSamples | Swift/TouchTracker/DrawView.swift:119-141 | two pan samples in the changed phase move the selected line as far as one sample with their sum |

## Left out

- Rendering: `strokeLine` and `draw` (lines 65-91) stroke with `UIBezierPath` and colours. That is framework drawing, and the model has no render query.
- Gesture-recognizer construction and wiring in `init(frame:)` (lines 24-47), and `gestureRecognizer(_:shouldRecognizeSimultaneouslyWith:)` (lines 56-61): UIKit configuration. Which callback UIKit invokes, and when, is left to the caller of the model.
- `init(coder:)` (lines 49-51) only calls `fatalError`.
- The edit menu and first-responder calls in `tap` (lines 199-209), every `setNeedsDisplay` and every `print`: UI side effects with no state of the view.
- Floating-point `CGFloat` and `hypot`: the model computes with exact reals. Rounding near the 20-point radius is not captured.
- ARC: the model does not capture when a line is deallocated. It only captures that the selection stops designating a line once that line leaves `finishedLines`.
- `Line` is declared outside DrawView.swift and is not modelled as written. Its optional `begin`/`end` are modelled as always present, because every line is created in `touchesBegan` with both set. Its equality is taken to be by value.
- Reference identity of lines in progress: a line in progress is held only by the dictionary, so it is modelled as a value that the handlers replace.
- `DrawView.DrawBoard.TouchesEnded`: UIKit's behaviour is not modelled. A touch whose line a long press or double tap discarded could later arrive at `touchesEnded`, and the source would crash on the force unwrap at line 172. The precondition only marks where that happens. Whether UIKit delivers `touchesCancelled` instead depends on the recognizers' `cancelsTouchesInView`, which is outside this model.
