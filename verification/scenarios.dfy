/** Client methods of `DrawBoard`: gesture sequences the view is meant to support, with what they leave behind. */
module Scenarios {
  import opened Wrappers
  import opened Geometry
  import opened Touches
  import opened HitTest
  import opened DrawView

  /** One touch that begins at `from`, moves to `to` and ends adds the line from `from` to `to`. */
  method Draw(board: DrawBoard, id: TouchId, from: Point, to: Point)
    requires board.Valid() && id !in board.linesInProgress
    modifies board
    ensures board.Valid()
    ensures board.finishedLines == old(board.finishedLines) + [Line(from, to)]
    ensures board.linesInProgress == old(board.linesInProgress)
    ensures board.selectedLine == old(board.selectedLine)
  {
    board.TouchesBegan([Touch(id, from)]);
    assert [Touch(id, from)][..0] == [];
    board.TouchesMoved([Touch(id, to)]);
    assert [Touch(id, to)][..0] == [];
    board.TouchesEnded([Touch(id, to)]);
    assert board.linesInProgress == old(board.linesInProgress);
  }

  /** A touch that begins, moves and ends leaves one finished line from its first to its last location. */
  method DrawOneLine() returns (board: DrawBoard)
    ensures board.Valid()
    ensures board.finishedLines == [Line(Point(0.0, 0.0), Point(10.0, 0.0))]
    ensures board.linesInProgress == map[] && board.selectedLine == None
  {
    board := new DrawBoard();
    Draw(board, 1, Point(0.0, 0.0), Point(10.0, 0.0));
  }

  /** A touch that begins and ends without moving leaves a zero-length line at its location. */
  method TouchWithoutMoving(p: Point) returns (board: DrawBoard)
    ensures board.Valid()
    ensures board.finishedLines == [Dot(p)] && board.linesInProgress == map[]
  {
    board := new DrawBoard();
    board.TouchesBegan([Touch(7, p)]);
    assert [Touch(7, p)][..0] == [];
    board.TouchesEnded([Touch(7, p)]);
  }

  /** Of two finished lines through the tapped point, the one drawn first is selected. */
  method TapOnOverlap() returns (board: DrawBoard)
    ensures board.Valid() && |board.finishedLines| == 2
    ensures Hits(board.finishedLines[0], Point(5.0, 5.0)) && Hits(board.finishedLines[1], Point(5.0, 5.0))
    ensures board.selectedLine == Some(0)
  {
    board := new DrawBoard();
    Draw(board, 1, Point(5.0, 5.0), Point(50.0, 5.0));
    Draw(board, 2, Point(5.0, 5.0), Point(5.0, 50.0));
    assert Hits(board.finishedLines[0], Point(5.0, 5.0)) by {
      HitsIff(board.finishedLines[0], Point(5.0, 5.0));
    }
    assert Hits(board.finishedLines[1], Point(5.0, 5.0)) by {
      HitsIff(board.finishedLines[1], Point(5.0, 5.0));
    }
    board.Tap(Point(5.0, 5.0));
  }

  /** Deleting the only finished line, once tapped, leaves nothing drawn and nothing selected. */
  method DeleteOnlyLine(l: Line) returns (board: DrawBoard)
    ensures board.Valid()
    ensures board.finishedLines == [] && board.selectedLine == None
  {
    board := new DrawBoard();
    Draw(board, 1, l.begin, l.end);
    assert Hits(board.finishedLines[0], l.begin) by {
      HitsIff(board.finishedLines[0], l.begin);
    }
    board.Tap(l.begin);
    board.DeleteLine();
  }

  /** A long press that lands on a line while another touch is drawing discards that drawing. */
  method LongPressDuringDrawing() returns (board: DrawBoard)
    ensures board.Valid()
    ensures board.finishedLines == [Line(Point(0.0, 0.0), Point(40.0, 0.0))]
    ensures board.linesInProgress == map[]
    ensures board.selectedLine == Some(0)
  {
    board := new DrawBoard();
    Draw(board, 1, Point(0.0, 0.0), Point(40.0, 0.0));
    board.TouchesBegan([Touch(3, Point(200.0, 200.0))]);
    assert Hits(board.finishedLines[0], Point(0.0, 0.0)) by {
      HitsIff(board.finishedLines[0], Point(0.0, 0.0));
    }
    board.LongPress(Began, Point(0.0, 0.0));
  }

  /** Two pan samples move the selected line as far as one sample carrying their sum. */
  method PanInTwoSamples(board: DrawBoard, d1: Point, d2: Point)
    requires board.Valid() && board.selectedLine.Some?
    modifies board
    ensures board.Valid() && board.selectedLine == old(board.selectedLine)
    ensures var i := board.selectedLine.value;
      board.finishedLines == old(board.finishedLines)[i := Translated(old(board.finishedLines)[i], d1.Plus(d2))]
  {
    var i := board.selectedLine.value;
    ghost var before := board.finishedLines;
    var rest := board.MoveLine(Changed, d1);
    ghost var between := board.finishedLines;
    assert between == before[i := Translated(before[i], d1)];
    rest := board.MoveLine(Changed, d2);
    assert board.finishedLines == between[i := Translated(between[i], d2)];
    TranslatedTwice(before[i], d1, d2);
    assert board.finishedLines == before[i := Translated(before[i], d1.Plus(d2))];
  }
}
