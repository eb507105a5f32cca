/** Concrete boards that show what the win check of the board does and does
    not recognise, and what the coordinate parser rejects. */
module Scenarios {
  import opened Text
  import opened Storage
  import opened Lines
  import opened LineFacts
  import opened Game

  /** A 3x3 board (D = 2) where 'O' owns the main diagonal, offsets 0, 4 and 8. */
  function MainDiagonalBoard(): (cells: string)
    ensures |cells| == Pow(3, 2)
  {
    assert Pow(3, 2) == 9;
    "O   O   O"
  }

  /** A 3x3 board where 'O' owns the anti-diagonal, offsets 2, 4 and 6. */
  function AntiDiagonalBoard(): (cells: string)
    ensures |cells| == Pow(3, 2)
  {
    assert Pow(3, 2) == 9;
    "  O O O  "
  }

  /** One step of a diagonal on a board with two axes, written out per axis. */
  lemma AdvanceTwo(prev: Coord, c: Coord, up: int, dn: int)
    requires |c| == 2 && |prev| == 2
    ensures Advance(prev, c, 0, up, dn) == [Wrap(prev[0], Dir(c, 0, up, dn), 2), Wrap(prev[1], Dir(c, 1, up, dn), 2)]
  {
  }

  /** One step of a cross-section diagonal with axis 0 pinned, on a board with three axes. */
  lemma AdvanceThree(prev: Coord, c: Coord, up: int, dn: int)
    requires |c| == 3 && |prev| == 3
    ensures Advance(prev, c, 1, up, dn) == [c[0], Wrap(prev[1], Dir(c, 1, up, dn), 3), Wrap(prev[2], Dir(c, 2, up, dn), 3)]
  {
    assert c[..1] == [c[0]];
  }

  /** With D = 2 there is one axis start, so the diagonals for a direction
      pair are that one candidate when it passes the slope check. */
  lemma SingleDiagonal(c: Coord, up: int, dn: int)
    requires |c| == 2 && SlopeCorrect(Candidate(c, up, dn, 0), 0)
    ensures Diagonals(c, up, dn) == [Candidate(c, up, dn, 0)]
  {
    assert Diagonals(c, up, dn) == DiagonalsBelow(c, up, dn, 1);
    assert DiagonalsBelow(c, up, dn, 0) == [];
  }

  /** The candidate of direction pair (-1, 1) through `c` on the 3x3 board. */
  lemma TwoStepCandidate(c: Coord, up: int, dn: int, p1: Coord, p2: Coord)
    requires |c| == 2 && |p1| == 2
    requires p1 == [Wrap(c[0], Dir(c, 0, up, dn), 2), Wrap(c[1], Dir(c, 1, up, dn), 2)]
    requires p2 == [Wrap(p1[0], Dir(c, 0, up, dn), 2), Wrap(p1[1], Dir(c, 1, up, dn), 2)]
    ensures Candidate(c, up, dn, 0) == [c, p1, p2]
  {
    AdvanceTwo(c, c, up, dn);
    assert DiagPoint(c, up, dn, 0, 1) == p1;
    AdvanceTwo(p1, c, up, dn);
    assert DiagPoint(c, up, dn, 0, 2) == p2;
  }

  /** A (-1, 1) diagonal of the 3x3 board that passes the slope check and
      that `tok` owns is reported as a win through any of its points. */
  lemma DiagonalWinsOnThree(c: Coord, p: Path, cells: string, tok: char)
    requires IsCoordinate(c, 2) && |cells| == Pow(3, 2)
    requires Candidate(c, -1, 1, 0) == p && SlopeCorrect(p, 0)
    requires forall j :: 0 <= j < |p| ==> IsCoordinate(p[j], 2)
    requires OwnedBy(p, cells, tok, 2)
    ensures WinIndex(c, cells, tok).Some?
  {
    SingleDiagonal(c, -1, 1);
    CandidatesOnBoard(c);
    assert Candidates(c)[2] == p;
    OwnedCandidateWins(c, cells, tok, 2);
  }

  /** The main diagonal from the corner (0, 0). */
  lemma MainDiagonalFromCorner()
    ensures Diagonals([0, 0], -1, 1) == [[[0, 0], [1, 1], [2, 2]]]
    ensures WinIndex([0, 0], MainDiagonalBoard(), 'O').Some?
  {
    var p: Path := [[0, 0], [1, 1], [2, 2]];
    TwoStepCandidate([0, 0], -1, 1, [1, 1], [2, 2]);
    assert SlopeCorrect(p, 0) by {
      assert AdjacentFrom(p[0], p[1], 0) && AdjacentFrom(p[1], p[0], 0) && AdjacentFrom(p[2], p[1], 0);
    }
    SingleDiagonal([0, 0], -1, 1);
    MainDiagonalOwned(p);
    DiagonalWinsOnThree([0, 0], p, MainDiagonalBoard(), 'O');
  }

  /** The main diagonal from the centre (1, 1): both axes step by -1 and wrap. */
  lemma MainDiagonalFromCentre()
    ensures Diagonals([1, 1], -1, 1) == [[[1, 1], [0, 0], [2, 2]]]
    ensures WinIndex([1, 1], MainDiagonalBoard(), 'O').Some?
  {
    var p: Path := [[1, 1], [0, 0], [2, 2]];
    TwoStepCandidate([1, 1], -1, 1, [0, 0], [2, 2]);
    assert SlopeCorrect(p, 0) by {
      assert AdjacentFrom(p[0], p[1], 0) && AdjacentFrom(p[1], p[0], 0) && AdjacentFrom(p[2], p[0], 0);
    }
    SingleDiagonal([1, 1], -1, 1);
    MainDiagonalOwned(p);
    DiagonalWinsOnThree([1, 1], p, MainDiagonalBoard(), 'O');
  }

  /** The main diagonal from the corner (2, 2). */
  lemma MainDiagonalFromFarCorner()
    ensures Diagonals([2, 2], -1, 1) == [[[2, 2], [1, 1], [0, 0]]]
    ensures WinIndex([2, 2], MainDiagonalBoard(), 'O').Some?
  {
    var p: Path := [[2, 2], [1, 1], [0, 0]];
    TwoStepCandidate([2, 2], -1, 1, [1, 1], [0, 0]);
    assert SlopeCorrect(p, 0) by {
      assert AdjacentFrom(p[0], p[1], 0) && AdjacentFrom(p[1], p[0], 0) && AdjacentFrom(p[2], p[1], 0);
    }
    SingleDiagonal([2, 2], -1, 1);
    MainDiagonalOwned(p);
    DiagonalWinsOnThree([2, 2], p, MainDiagonalBoard(), 'O');
  }

  /** 'O' owns the main diagonal of its board, in any order of its points. */
  lemma MainDiagonalOwned(p: Path)
    requires |p| == 3 && forall j :: 0 <= j < 3 ==> p[j] in {[0, 0], [1, 1], [2, 2]}
    ensures forall j :: 0 <= j < |p| ==> IsCoordinate(p[j], 2)
    ensures OwnedBy(p, MainDiagonalBoard(), 'O', 2)
  {
    assert Offset([0, 0], 2) == 0 && Offset([1, 1], 2) == 4 && Offset([2, 2], 2) == 8;
  }

  /** The diagonal candidates through the centre of the 3x3 board: both axes
      are "high", so they step the same way and only the main diagonal
      comes out, in one order or the other. */
  lemma CentreDiagonals()
    ensures Diagonals([1, 1], -1, 1) == [[[1, 1], [0, 0], [2, 2]]]
    ensures Diagonals([1, 1], -1, -1) == [[[1, 1], [0, 0], [2, 2]]]
    ensures Diagonals([1, 1], 1, -1) == [[[1, 1], [2, 2], [0, 0]]]
    ensures Diagonals([1, 1], 1, 1) == [[[1, 1], [2, 2], [0, 0]]]
  {
    var c: Coord := [1, 1];
    var p: Path := [[1, 1], [0, 0], [2, 2]];
    var q: Path := [[1, 1], [2, 2], [0, 0]];
    assert SlopeCorrect(p, 0) by {
      assert AdjacentFrom(p[0], p[1], 0) && AdjacentFrom(p[1], p[0], 0) && AdjacentFrom(p[2], p[0], 0);
    }
    assert SlopeCorrect(q, 0) by {
      assert AdjacentFrom(q[0], q[1], 0) && AdjacentFrom(q[1], q[0], 0) && AdjacentFrom(q[2], q[0], 0);
    }
    TwoStepCandidate(c, -1, 1, [0, 0], [2, 2]);
    SingleDiagonal(c, -1, 1);
    TwoStepCandidate(c, -1, -1, [0, 0], [2, 2]);
    SingleDiagonal(c, -1, -1);
    TwoStepCandidate(c, 1, -1, [2, 2], [0, 0]);
    SingleDiagonal(c, 1, -1);
    TwoStepCandidate(c, 1, 1, [2, 2], [0, 0]);
    SingleDiagonal(c, 1, 1);
  }

  /** The straight paths through the centre: its column and its row. */
  lemma CentreStraightPaths()
    ensures StraightPaths([1, 1]) == [[[0, 1], [1, 1], [2, 1]], [[1, 0], [1, 1], [1, 2]]]
  {
    var c: Coord := [1, 1];
    assert c[0 := 0] == [0, 1] && c[0 := 1] == [1, 1] && c[0 := 2] == [2, 1];
    assert c[1 := 0] == [1, 0] && c[1 := 1] == [1, 1] && c[1 := 2] == [1, 2];
    assert StraightPaths(c)[0] == [[0, 1], [1, 1], [2, 1]];
    assert StraightPaths(c)[1] == [[1, 0], [1, 1], [1, 2]];
  }

  /** Every candidate through the centre, in the order the scan tries them. */
  lemma CentreCandidates()
    ensures Candidates([1, 1]) == [[[0, 1], [1, 1], [2, 1]], [[1, 0], [1, 1], [1, 2]],
                                   [[1, 1], [0, 0], [2, 2]], [[1, 1], [2, 2], [0, 0]],
                                   [[1, 1], [0, 0], [2, 2]], [[1, 1], [2, 2], [0, 0]]]
  {
    CentreStraightPaths();
    CentreDiagonals();
  }

  /** 'O' owns the anti-diagonal of its board. */
  lemma AntiDiagonalBoardOwnership()
    ensures OwnedBy([[0, 2], [1, 1], [2, 0]], AntiDiagonalBoard(), 'O', 2)
  {
    var cells := AntiDiagonalBoard();
    assert Offset([0, 2], 2) == 2 && Offset([1, 1], 2) == 4 && Offset([2, 0], 2) == 6;
    assert cells == "  O O O  ";
  }

  /** Neither straight line through the centre is owned on that board. */
  lemma AntiDiagonalBoardStraight()
    ensures !OwnedBy([[0, 1], [1, 1], [2, 1]], AntiDiagonalBoard(), 'O', 2)
    ensures !OwnedBy([[1, 0], [1, 1], [1, 2]], AntiDiagonalBoard(), 'O', 2)
  {
    var cells := AntiDiagonalBoard();
    assert Offset([0, 1], 2) == 1 && Offset([1, 0], 2) == 3;
    assert cells == "  O O O  ";
    var col: Path := [[0, 1], [1, 1], [2, 1]];
    assert cells[Offset(col[0], 2)] != 'O';
    var row: Path := [[1, 0], [1, 1], [1, 2]];
    assert cells[Offset(row[0], 2)] != 'O';
  }

  /** Neither main-diagonal candidate through the centre is owned on that board. */
  lemma AntiDiagonalBoardMain()
    ensures !OwnedBy([[1, 1], [0, 0], [2, 2]], AntiDiagonalBoard(), 'O', 2)
    ensures !OwnedBy([[1, 1], [2, 2], [0, 0]], AntiDiagonalBoard(), 'O', 2)
  {
    var cells := AntiDiagonalBoard();
    assert Offset([0, 0], 2) == 0;
    assert cells == "  O O O  ";
    var p: Path := [[1, 1], [0, 0], [2, 2]];
    assert cells[Offset(p[1], 2)] != 'O';
    var q: Path := [[1, 1], [2, 2], [0, 0]];
    assert cells[Offset(q[2], 2)] != 'O';
  }

  /** From the centre of the 3x3 board the anti-diagonal is never a
      candidate: 'O' owns it, yet claiming the centre last is not reported as
      a win. */
  lemma CentreMissesAntiDiagonal()
    ensures OwnedBy([[0, 2], [1, 1], [2, 0]], AntiDiagonalBoard(), 'O', 2)
    ensures [[0, 2], [1, 1], [2, 0]] !in Candidates([1, 1])
    ensures WinIndex([1, 1], AntiDiagonalBoard(), 'O') == None
  {
    CentreCandidates();
    AntiDiagonalBoardOwnership();
    AntiDiagonalBoardStraight();
    AntiDiagonalBoardMain();
  }

  /** From the corner (0, 2) the same anti-diagonal is a candidate. */
  lemma CornerFindsAntiDiagonal()
    ensures Diagonals([0, 2], -1, 1) == [[[0, 2], [1, 1], [2, 0]]]
  {
    var c: Coord := [0, 2];
    TwoStepCandidate(c, -1, 1, [1, 1], [2, 0]);
    var p: Path := [[0, 2], [1, 1], [2, 0]];
    assert SlopeCorrect(p, 0) by {
      assert AdjacentFrom(p[0], p[1], 0) && AdjacentFrom(p[1], p[0], 0) && AdjacentFrom(p[2], p[1], 0);
    }
    SingleDiagonal(c, -1, 1);
  }

  /** On the 4x4x4 board (D = 3) the cross-section candidate from (0, 2, 0)
      with axis 0 pinned moves up on axis 1 (2 is high) and up on axis 2 (0
      is low, and `dn` is 1), wrapping from 3 to 0 on axis 1. */
  lemma WrappedCandidate()
    ensures Candidate([0, 2, 0], 1, 1, 1) == [[0, 2, 0], [0, 3, 1], [0, 0, 2], [0, 1, 3]]
  {
    var c: Coord := [0, 2, 0];
    AdvanceThree(c, c, 1, 1);
    assert DiagPoint(c, 1, 1, 1, 1) == [0, 3, 1];
    AdvanceThree([0, 3, 1], c, 1, 1);
    assert DiagPoint(c, 1, 1, 1, 2) == [0, 0, 2];
    AdvanceThree([0, 0, 2], c, 1, 1);
    assert DiagPoint(c, 1, 1, 1, 3) == [0, 1, 3];
  }

  /** That wrapped path passes the slope check, so it is a candidate and
      owning its four cells counts as a win, although it jumps from 3 to 0
      between its second and third point. */
  lemma WrappedPathAccepted()
    ensures [[0, 2, 0], [0, 3, 1], [0, 0, 2], [0, 1, 3]] in Diagonals([0, 2, 0], 1, 1)
  {
    var c: Coord := [0, 2, 0];
    WrappedCandidate();
    var p: Path := [[0, 2, 0], [0, 3, 1], [0, 0, 2], [0, 1, 3]];
    assert SlopeCorrect(p, 1) by {
      assert AdjacentFrom(p[0], p[1], 1) && AdjacentFrom(p[1], p[0], 1);
      assert AdjacentFrom(p[2], p[3], 1) && AdjacentFrom(p[3], p[2], 1);
    }
    assert Diagonals(c, 1, 1) == DiagonalsBelow(c, 1, 1, 1) + [p];
  }

  /** `Split` on a string that starts with a character other than the separator. */
  lemma SplitOther(ch: char, t: string, sep: char)
    requires ch != sep
    ensures Split([ch] + t, sep) == [[ch] + Split(t, sep)[0]] + Split(t, sep)[1..]
  {
    assert ([ch] + t)[0] == ch && ([ch] + t)[1..] == t;
  }

  /** `Split` on a string that starts with the separator. */
  lemma SplitSep(t: string, sep: char)
    ensures Split([sep] + t, sep) == [[]] + Split(t, sep)
  {
    assert ([sep] + t)[0] == sep && ([sep] + t)[1..] == t;
  }

  /** "1..2" has an empty middle part, which is not numeric. */
  lemma ParseEmptyPart()
    ensures ParseCoordinate("1..2", 2) == Err(NonNumeric)
  {
    SplitOther('2', "", '.');
    assert ['2'] + "" == "2";
    SplitSep("2", '.');
    assert ['.'] + "2" == ".2";
    SplitSep(".2", '.');
    assert ['.'] + ".2" == "..2";
    SplitOther('1', "..2", '.');
    assert ['1'] + "..2" == "1..2";
    assert Split("1..2", '.')[1] == "";
  }

  /** A trailing dot leaves an empty last part. */
  lemma ParseTrailingDot()
    ensures ParseCoordinate("1.2.", 2) == Err(NonNumeric)
  {
    SplitSep("", '.');
    assert ['.'] + "" == ".";
    SplitOther('2', ".", '.');
    assert ['2'] + "." == "2.";
    SplitSep("2.", '.');
    assert ['.'] + "2." == ".2.";
    SplitOther('1', ".2.", '.');
    assert ['1'] + ".2." == "1.2.";
    assert Split("1.2.", '.')[2] == "";
  }

  /** One component on a two-dimensional board is the wrong count. */
  lemma ParseTooFew()
    ensures ParseCoordinate("1", 2) == Err(WrongCount)
  {
    SplitOther('1', "", '.');
    assert ['1'] + "" == "1";
    assert Split("1", '.') == ["1"];
    assert IsNumeric("1");
  }

  /** A component above D makes the lookup raise `IndexError`; one at D is accepted. */
  lemma ParseBeyondBoard()
    ensures ParseCoordinate("3.0", 2) == Err(OutOfRange)
    ensures ParseCoordinate("2.0", 2) == Ok([2, 0])
  {
    SplitOther('0', "", '.');
    assert ['0'] + "" == "0";
    SplitSep("0", '.');
    assert ['.'] + "0" == ".0";
    assert Split("0", '.') == ["0"];
    assert Split(".0", '.') == ["", "0"];
    assert ['3'] + "" == "3" && ['2'] + "" == "2";
    SplitOther('3', ".0", '.');
    assert ['3'] + ".0" == "3.0";
    SplitOther('2', ".0", '.');
    assert ['2'] + ".0" == "2.0";
    assert Split("3.0", '.') == ["3", "0"];
    assert Split("2.0", '.') == ["2", "0"];
    assert IsNumeric("3") && IsNumeric("2") && IsNumeric("0");
    assert ParseNat("3") == 3 && ParseNat("2") == 2 && ParseNat("0") == 0;
    assert AllNumeric(Split("3.0", '.')) && AllNumeric(Split("2.0", '.'));
    var r := ParseCoordinate("2.0", 2);
    assert r.Ok? && r.value[0] == 2 && r.value[1] == 0;
    assert |r.value| == 2;
    assert r.value == [2, 0];
    var e := ParseCoordinate("3.0", 2);
    assert ParseNat(Split("3.0", '.')[0]) == 3;
    assert !e.Ok?;
    assert e != Err(NonNumeric) && e != Err(WrongCount);
    assert e == Err(OutOfRange);
  }

  /** A board built here can be played on: the first claim of "2.0" on a new
      3x3 board succeeds, and a second claim of the same cell is refused. */
  method FreshBoardMoves() returns (first: Outcome, again: Outcome)
    ensures first == Success && again == Occupied
  {
    var b := new Board(2);
    ParseBeyondBoard();
    first := b.PlaceToken("2.0", b.players[0]);
    again := b.PlaceToken("2.0", b.players[1]);
  }
}
