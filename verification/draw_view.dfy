/**
 The state behind `DrawView`: the lines being drawn, keyed by touch; the
 finished lines, in the order they were completed; and the selected line.
 Each UIKit callback becomes a method that updates these three fields; the
 redraw requests, menus and logging around them are not modelled.
 */
module DrawView {
  import opened Wrappers
  import opened Geometry
  import opened ArrayRemove
  import opened Touches
  import opened HitTest

  /** The phases a gesture recognizer reports (`UIGestureRecognizerState`). */
  datatype GestureState = Possible | Began | Changed | Ended | Cancelled | Failed

  class DrawBoard {
    /** Lines being drawn, keyed by the touch drawing them. */
    var linesInProgress: map<TouchId, Line>
    /** Completed lines, earliest first: the order of drawing and of the hit test. */
    var finishedLines: seq<Line>
    /**
     The `weak var selectedLine`, as the position of the referenced line in
     `finishedLines`. A finished line is held by nothing else, so the weak
     reference lapses exactly when that line leaves the list.
     */
    var selectedLine: Option<nat>

    /** The selection, when there is one, designates a line of `finishedLines`. */
    ghost predicate Valid()
      reads this
      ensures Valid() && selectedLine.Some? ==> finishedLines != []
    {
      selectedLine.Some? ==> selectedLine.value < |finishedLines|
    }

    /** A fresh view: nothing drawn, nothing selected. */
    constructor ()
      ensures Valid()
      ensures linesInProgress == map[] && finishedLines == [] && selectedLine == None
    {
      linesInProgress := map[];
      finishedLines := [];
      selectedLine := None;
    }

    /** `lineAtPoint(p:)`: the first finished line with a sampled point near p. */
    method LineAtPoint(p: Point) returns (hit: Option<nat>)
      ensures hit == FirstHit(finishedLines, p)
    {
      var i := 0;
      while i < |finishedLines|
        invariant 0 <= i <= |finishedLines|
        invariant forall j | 0 <= j < i :: !Hits(finishedLines[j], p)
      {
        var line := finishedLines[i];
        var k := 0;
        while k < |SampleFractions()|
          invariant 0 <= k <= |SampleFractions()|
          invariant forall n | 0 <= n < k :: !Near(PointAt(line, SampleFractions()[n]), p)
        {
          if Near(PointAt(line, SampleFractions()[k]), p) {
            FirstHitIs(finishedLines, p, i);
            return Some(i);
          }
          k := k + 1;
        }
        i := i + 1;
      }
      return None;
    }

    /** `touchesBegan`: every touch starts a zero-length line at its location. */
    method TouchesBegan(touches: seq<Touch>)
      requires Valid()
      modifies this
      ensures Valid()
      ensures linesInProgress == BeginAll(old(linesInProgress), touches)
      ensures finishedLines == old(finishedLines) && selectedLine == old(selectedLine)
    {
      var i := 0;
      while i < |touches|
        invariant 0 <= i <= |touches|
        invariant linesInProgress == BeginAll(old(linesInProgress), touches[..i])
        invariant finishedLines == old(finishedLines) && selectedLine == old(selectedLine)
      {
        var t := touches[i];
        linesInProgress := linesInProgress[t.id := Dot(t.location)];
        assert touches[..i + 1][..i] == touches[..i];
        i := i + 1;
      }
      assert touches[..i] == touches;
    }

    /** `touchesMoved`: the line of each tracked touch ends where the touch now is. */
    method TouchesMoved(touches: seq<Touch>)
      requires Valid()
      modifies this
      ensures Valid()
      ensures linesInProgress == MoveAll(old(linesInProgress), touches)
      ensures finishedLines == old(finishedLines) && selectedLine == old(selectedLine)
    {
      var i := 0;
      while i < |touches|
        invariant 0 <= i <= |touches|
        invariant linesInProgress == MoveAll(old(linesInProgress), touches[..i])
        invariant finishedLines == old(finishedLines) && selectedLine == old(selectedLine)
      {
        var t := touches[i];
        if t.id in linesInProgress {
          var line := linesInProgress[t.id];
          linesInProgress := linesInProgress[t.id := line.(end := t.location)];
        }
        assert touches[..i + 1][..i] == touches[..i];
        i := i + 1;
      }
      assert touches[..i] == touches;
    }

    /**
     `touchesEnded`: each touch's line moves to the end of `finishedLines`. The
     dictionary lookup is force-unwrapped, so every touch must be tracked.
     */
    method TouchesEnded(touches: seq<Touch>)
      requires Valid()
      requires DistinctIds(touches) && Ids(touches) <= linesInProgress.Keys
      modifies this
      ensures Valid()
      ensures finishedLines == old(finishedLines) + EndedLines(old(linesInProgress), touches)
      ensures linesInProgress == old(linesInProgress) - Ids(touches)
      ensures selectedLine == old(selectedLine)
      ensures |linesInProgress| + |finishedLines| == |old(linesInProgress)| + |old(finishedLines)|
    {
      var i := 0;
      while i < |touches|
        invariant 0 <= i <= |touches|
        invariant Ids(touches[..i]) <= Ids(touches)
        invariant finishedLines == old(finishedLines) + EndedLines(old(linesInProgress), touches[..i])
        invariant linesInProgress == old(linesInProgress) - Ids(touches[..i])
        invariant selectedLine == old(selectedLine)
      {
        var key := touches[i].id;
        NotInEarlierIds(touches, i);
        var line := linesInProgress[key];
        finishedLines := finishedLines + [line];
        linesInProgress := linesInProgress - {key};
        IdsPrefix(touches, i);
        assert touches[..i + 1][..i] == touches[..i];
        i := i + 1;
      }
      assert touches[..i] == touches;
      EndedConservesLines(old(linesInProgress), old(finishedLines), touches);
    }

    /** `touchesCancelled`: the lines of the touches are discarded; untracked touches are ignored. */
    method TouchesCancelled(touches: seq<Touch>)
      requires Valid()
      modifies this
      ensures Valid()
      ensures linesInProgress == old(linesInProgress) - Ids(touches)
      ensures finishedLines == old(finishedLines) && selectedLine == old(selectedLine)
    {
      var i := 0;
      while i < |touches|
        invariant 0 <= i <= |touches|
        invariant linesInProgress == old(linesInProgress) - Ids(touches[..i])
        invariant finishedLines == old(finishedLines) && selectedLine == old(selectedLine)
      {
        linesInProgress := linesInProgress - {touches[i].id};
        IdsPrefix(touches, i);
        i := i + 1;
      }
      assert touches[..i] == touches;
    }

    /**
     `doubleTap`: both collections are emptied. With the finished lines gone the
     weak selection lapses as well.
     */
    method DoubleTap()
      modifies this
      ensures Valid()
      ensures linesInProgress == map[] && finishedLines == [] && selectedLine == None
    {
      linesInProgress := map[];
      finishedLines := [];
      selectedLine := None;
    }

    /** `tap`: select the line under the point, or clear the selection on a miss. */
    method Tap(point: Point)
      requires Valid()
      modifies this`selectedLine
      ensures Valid()
      ensures selectedLine == FirstHit(finishedLines, point)
    {
      selectedLine := LineAtPoint(point);
    }

    /**
     `longPress`: when the press begins, select the line under the point and, on
     a hit, drop every line in progress; when it ends, clear the selection.
     */
    method LongPress(state: GestureState, point: Point)
      requires Valid()
      modifies this`selectedLine, this`linesInProgress
      ensures Valid()
      ensures finishedLines == old(finishedLines)
      ensures state == Began ==>
        && selectedLine == FirstHit(finishedLines, point)
        && linesInProgress == if selectedLine.Some? then map[] else old(linesInProgress)
      ensures state == Ended ==>
        selectedLine == None && linesInProgress == old(linesInProgress)
      ensures state != Began && state != Ended ==>
        selectedLine == old(selectedLine) && linesInProgress == old(linesInProgress)
    {
      if state == Began {
        selectedLine := LineAtPoint(point);
        if selectedLine.Some? {
          linesInProgress := map[];
        }
      } else if state == Ended {
        selectedLine := None;
      }
    }

    /**
     `moveLine`: while the pan changes, move the selected line by the
     recognizer's translation and reset the translation to zero. Returns the
     recognizer's translation after the call: unchanged when nothing is
     selected or the pan is in another phase, so it keeps accumulating.
     */
    method MoveLine(state: GestureState, translation: Point) returns (remaining: Point)
      requires Valid()
      modifies this`finishedLines
      ensures Valid()
      ensures selectedLine.Some? && state == Changed ==>
        && finishedLines == old(finishedLines)[selectedLine.value := Translated(old(finishedLines)[selectedLine.value], translation)]
        && remaining == Origin
      ensures selectedLine.None? || state != Changed ==>
        finishedLines == old(finishedLines) && remaining == translation
    {
      if selectedLine.None? {
        return translation;
      }
      remaining := translation;
      if state == Changed {
        var i := selectedLine.value;
        finishedLines := finishedLines[i := Translated(finishedLines[i], translation)];
        remaining := Origin;
      }
    }

    /**
     `deleteLine`: remove the selected line with `Array.remove(_:)`. The
     selection is force-unwrapped, so one must exist. Removal is by value, so
     an earlier line equal to the selected one is removed in its place; the
     selected line then survives, one position further down.
     */
    method DeleteLine()
      requires Valid() && selectedLine.Some?
      modifies this`finishedLines, this`selectedLine
      ensures Valid()
      ensures var i := old(selectedLine).value;
        var line := old(finishedLines)[i];
        && finishedLines == RemovedFirst(old(finishedLines), line)
        && selectedLine == if FirstIndex(old(finishedLines), line) == Some(i) then None else Some(i - 1)
      ensures selectedLine.Some? ==>
        finishedLines[selectedLine.value] == old(finishedLines)[old(selectedLine).value]
    {
      var i := selectedLine.value;
      var line := finishedLines[i];
      var removedAt := IndexOf(finishedLines, line);
      RemovedFirstPositions(finishedLines, line, i);
      finishedLines := Remove(finishedLines, line);
      selectedLine := if removedAt == Some(i) then None else Some(i - 1);
    }
  }
}
