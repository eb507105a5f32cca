/** The paths through a just-claimed cell that the win check inspects: the D
    axis-aligned paths, then the diagonals `__get_diagonals` builds for four
    (up, dn) pairs, each kept only when it passes the slope check. A path is a
    sequence of coordinates; the board dimension D is the coordinate length. */
module Lines {
  import opened Storage

  type Coord = seq<int>
  type Path = seq<Coord>

  function Abs(x: int): nat {
    if x < 0 then -x else x
  }

  /** One wrapped step of a varying axis: add `delta`, then move a value that
      fell below 0 up by D+1 and a value above D down by D+1. */
  function Wrap(v: int, delta: int, D: nat): int {
    v + delta + (if v + delta < 0 then D + 1 else 0) - (if v + delta > D then D + 1 else 0)
  }

  /** The direction of axis `a`: `up` when the claimed component is in the
      upper half (`indexes[a] >= D / 2`), `dn` otherwise. */
  function Dir(c: Coord, a: nat, up: int, dn: int): int
    requires a < |c|
  {
    if 2 * c[a] >= |c| then up else dn
  }

  /** The point after `prev` on the diagonal that varies axes `i` and above:
      axes below `i` are pinned to the claimed coordinate `c`, every other axis
      takes one wrapped step in its direction. */
  function Advance(prev: Coord, c: Coord, i: nat, up: int, dn: int): (next: Coord)
    requires |prev| == |c| && i <= |c|
    ensures |next| == |c|
  {
    c[..i] + seq(|c| - i, k requires 0 <= k < |c| - i => Wrap(prev[k + i], Dir(c, k + i, up, dn), |c|))
  }

  /** Point `j` of the diagonal candidate through `c` that varies axes `i` and above. */
  function DiagPoint(c: Coord, up: int, dn: int, i: nat, j: nat): (p: Coord)
    requires i <= |c|
    ensures |p| == |c|
    decreases j
  {
    if j == 0 then c else Advance(DiagPoint(c, up, dn, i, j - 1), c, i, up, dn)
  }

  /** The D+1 points of the diagonal candidate for axis start `i`. */
  function Candidate(c: Coord, up: int, dn: int, i: nat): (path: Path)
    requires i <= |c|
    ensures |path| == |c| + 1
    ensures forall j :: 0 <= j < |path| ==> |path[j]| == |c|
  {
    seq(|c| + 1, j requires 0 <= j <= |c| => DiagPoint(c, up, dn, i, j))
  }

  /** `p` and `q` differ by exactly 1 on every axis from `s` on. */
  predicate AdjacentFrom(p: Coord, q: Coord, s: int) {
    forall k :: 0 <= k < |p| && k >= s ==> k < |q| && Abs(p[k] - q[k]) == 1
  }

  /** Some other point of `ps` is adjacent to point `i` from axis `s` on. */
  predicate HasNeighbour(ps: Path, i: nat, s: int)
    requires i < |ps|
  {
    exists j :: 0 <= j < |ps| && j != i && AdjacentFrom(ps[i], ps[j], s)
  }

  /** `__is_slope_correct(ps, s)`: every point has a neighbour in `ps`. */
  predicate SlopeCorrect(ps: Path, s: int) {
    forall i :: 0 <= i < |ps| ==> HasNeighbour(ps, i, s)
  }

  /** The candidates for axis starts 0..n-1 that pass the slope check, in order. */
  function DiagonalsBelow(c: Coord, up: int, dn: int, n: nat): seq<Path>
    requires n <= |c|
  {
    if n == 0 then []
    else
      var cand := Candidate(c, up, dn, n - 1);
      DiagonalsBelow(c, up, dn, n - 1) + (if SlopeCorrect(cand, n - 1) then [cand] else [])
  }

  /** `__get_diagonals(c, up, dn)`: axis starts 0..D-2. */
  function Diagonals(c: Coord, up: int, dn: int): seq<Path> {
    DiagonalsBelow(c, up, dn, if |c| >= 1 then |c| - 1 else 0)
  }

  /** The D axis-aligned paths through `c`: path `i` runs axis `i` from 0 to D. */
  function StraightPaths(c: Coord): seq<Path> {
    seq(|c|, i requires 0 <= i < |c| => seq(|c| + 1, j requires 0 <= j <= |c| => c[i := j]))
  }

  /** Every path the win check inspects, in the order it inspects them. */
  function Candidates(c: Coord): seq<Path> {
    StraightPaths(c) + Diagonals(c, -1, 1) + Diagonals(c, 1, -1) + Diagonals(c, -1, -1) + Diagonals(c, 1, 1)
  }

  /** Every point of every path is a coordinate of the D-dimensional board. */
  predicate OnBoard(paths: seq<Path>, D: nat) {
    forall k, j :: 0 <= k < |paths| && 0 <= j < |paths[k]| ==> IsCoordinate(paths[k][j], D)
  }

  /** Every cell on `path` is owned by `tok`. */
  predicate OwnedBy(path: Path, cells: seq<char>, tok: char, D: nat)
    requires |cells| == Pow(D + 1, D)
    requires forall j :: 0 <= j < |path| ==> IsCoordinate(path[j], D)
  {
    forall j :: 0 <= j < |path| ==>
      assert IsCoordinate(path[j], D);
      cells[Offset(path[j], D)] == tok
  }

  /** The position of the first path entirely owned by `tok`, if any. */
  function FirstOwned(paths: seq<Path>, cells: seq<char>, tok: char, D: nat): (r: Option<nat>)
    requires |cells| == Pow(D + 1, D) && OnBoard(paths, D)
    ensures r.Some? ==> r.value < |paths| && OwnedBy(paths[r.value], cells, tok, D)
    ensures r.Some? ==> forall k :: 0 <= k < r.value ==> !OwnedBy(paths[k], cells, tok, D)
    ensures r.None? ==> forall k :: 0 <= k < |paths| ==> !OwnedBy(paths[k], cells, tok, D)
  {
    if paths == [] then None
    else if OwnedBy(paths[0], cells, tok, D) then Some(0)
    else
      assert OnBoard(paths[1..], D) by {
        forall k, j | 0 <= k < |paths| - 1 && 0 <= j < |paths[1..][k]|
          ensures IsCoordinate(paths[1..][k][j], D)
        {
          assert paths[1..][k] == paths[k + 1];
        }
      }
      match FirstOwned(paths[1..], cells, tok, D)
      case None => None
      case Some(k) => Some(k + 1)
  }

  // ---------------------------------------------------------------------------
  // The loops of tictactoe.py, proved against the functions above.

  /** The straight-path loop of `__is_winning_move`. */
  method GetStraightPaths(indexes: Coord) returns (intersectingPaths: seq<Path>)
    ensures intersectingPaths == StraightPaths(indexes)
  {
    var D := |indexes|;
    intersectingPaths := [];
    var i := 0;
    while i < D
      invariant 0 <= i <= D
      invariant |intersectingPaths| == i
      invariant forall i' :: 0 <= i' < i ==> intersectingPaths[i'] == StraightPaths(indexes)[i']
    {
      var tempList: Path := [];
      var j := 0;
      while j < D + 1
        invariant 0 <= j <= D + 1
        invariant |tempList| == j
        invariant forall j' :: 0 <= j' < j ==> tempList[j'] == indexes[i := j']
      {
        var tempCoord := indexes;
        tempCoord := tempCoord[i := j];
        tempList := tempList + [tempCoord];
        j := j + 1;
      }
      intersectingPaths := intersectingPaths + [tempList];
      i := i + 1;
    }
  }

  /** `__is_slope_correct`: three nested loops accumulating booleans. */
  method IsSlopeCorrect(coordList: Path, indexStart: int) returns (slopeIsCorrect: bool)
    requires forall i, j :: 0 <= i < |coordList| && 0 <= j < |coordList| ==> |coordList[i]| == |coordList[j]|
    ensures slopeIsCorrect == SlopeCorrect(coordList, indexStart)
  {
    slopeIsCorrect := true;
    var i := 0;
    while i < |coordList|
      invariant 0 <= i <= |coordList|
      invariant slopeIsCorrect == forall i' :: 0 <= i' < i ==> HasNeighbour(coordList, i', indexStart)
    {
      var foundASlopeMatch := false;
      var j := 0;
      while j < |coordList|
        invariant 0 <= j <= |coordList|
        invariant foundASlopeMatch ==
          exists j' :: 0 <= j' < j && j' != i && AdjacentFrom(coordList[i], coordList[j'], indexStart)
      {
        if i != j {
          var thisPointInSlope := true;
          var k := 0;
          while k < |coordList[i]|
            invariant 0 <= k <= |coordList[i]|
            invariant thisPointInSlope ==
              forall k' :: 0 <= k' < k && k' >= indexStart ==> Abs(coordList[i][k'] - coordList[j][k']) == 1
          {
            if k >= indexStart {
              thisPointInSlope := thisPointInSlope && Abs(coordList[i][k] - coordList[j][k]) == 1;
            }
            k := k + 1;
          }
          foundASlopeMatch := foundASlopeMatch || thisPointInSlope;
        }
        j := j + 1;
      }
      assert foundASlopeMatch == HasNeighbour(coordList, i, indexStart);
      slopeIsCorrect := slopeIsCorrect && foundASlopeMatch;
      i := i + 1;
    }
  }

  /** The innermost loop of `__get_diagonals`: step every axis from `i` on
      by its direction, wrapping, and leave the axes below `i` alone. */
  method StepAxes(prev: Coord, indexes: Coord, i: nat, up: int, dn: int) returns (tempCoord: Coord)
    requires |prev| == |indexes| && i <= |indexes|
    ensures |tempCoord| == |indexes| && tempCoord[..i] == prev[..i]
    ensures tempCoord[i..] == Advance(prev, indexes, i, up, dn)[i..]
  {
    var D := |indexes|;
    tempCoord := prev;
    var k := 0;
    while k < D - i
      invariant 0 <= k <= D - i
      invariant |tempCoord| == D
      invariant forall a :: 0 <= a < i || i + k <= a < D ==> tempCoord[a] == prev[a]
      invariant forall a :: i <= a < i + k ==> tempCoord[a] == Wrap(prev[a], Dir(indexes, a, up, dn), D)
    {
      if 2 * indexes[k + i] >= D {
        tempCoord := tempCoord[k + i := Wrap(tempCoord[k + i], up, D)];
      } else {
        tempCoord := tempCoord[k + i := Wrap(tempCoord[k + i], dn, D)];
      }
      k := k + 1;
    }
  }

  /** One pass of the middle loop of `__get_diagonals`: point `j` of the
      candidate for axis start `i`, built from point `j - 1`. */
  method NextPoint(indexes: Coord, tempList: Path, i: nat, j: nat, up: int, dn: int) returns (dimLockedCoord: Coord)
    requires i <= |indexes| && j <= |indexes| && tempList == Candidate(indexes, up, dn, i)[..j]
    ensures dimLockedCoord == Candidate(indexes, up, dn, i)[j]
  {
    var D := |indexes|;
    var tempCoord: Coord;
    if j == 0 {
      tempCoord := indexes;
    } else {
      tempCoord := tempList[j - 1];
    }
    if j > 0 {
      tempCoord := StepAxes(tempCoord, indexes, i, up, dn);
    }
    if 0 < i {
      dimLockedCoord := indexes[..i] + tempCoord[i..];
    } else {
      dimLockedCoord := tempCoord;
    }
    ghost var target := Candidate(indexes, up, dn, i)[j];
    assert target == DiagPoint(indexes, up, dn, i, j);
    if j == 0 {
      assert indexes == indexes[..i] + indexes[i..];
    } else {
      ghost var prev := Candidate(indexes, up, dn, i)[j - 1];
      assert tempList[j - 1] == prev && prev == DiagPoint(indexes, up, dn, i, j - 1);
      assert target == Advance(prev, indexes, i, up, dn);
      assert target == indexes[..i] + target[i..];
      if i == 0 {
        assert tempCoord == tempCoord[0..] && target == target[0..];
      }
    }
  }

  /** The middle loop of `__get_diagonals`: the D+1 points of the candidate
      for axis start `i`. */
  method BuildCandidate(indexes: Coord, i: nat, up: int, dn: int) returns (tempList: Path)
    requires i <= |indexes|
    ensures tempList == Candidate(indexes, up, dn, i)
  {
    var D := |indexes|;
    tempList := [];
    var j := 0;
    while j < D + 1
      invariant 0 <= j <= D + 1
      invariant tempList == Candidate(indexes, up, dn, i)[..j]
    {
      var dimLockedCoord := NextPoint(indexes, tempList, i, j, up, dn);
      tempList := tempList + [dimLockedCoord];
      j := j + 1;
    }
  }

  /** `__get_diagonals`: for each axis start, build the candidate point by
      point and keep it when the slope check passes. */
  method GetDiagonals(indexes: Coord, up: int, dn: int) returns (intersectingPaths: seq<Path>)
    ensures intersectingPaths == Diagonals(indexes, up, dn)
  {
    var D := |indexes|;
    intersectingPaths := [];
    var i := 0;
    while i < D - 1
      invariant 0 <= i <= (if D >= 1 then D - 1 else 0)
      invariant intersectingPaths == DiagonalsBelow(indexes, up, dn, i)
    {
      var tempList := BuildCandidate(indexes, i, up, dn);
      assert forall a :: 0 <= a < |tempList| ==> |tempList[a]| == D;
      var includeInTempList := IsSlopeCorrect(tempList, i);
      assert DiagonalsBelow(indexes, up, dn, i + 1) ==
        DiagonalsBelow(indexes, up, dn, i) + (if SlopeCorrect(tempList, i) then [tempList] else []);
      if includeInTempList {
        intersectingPaths := intersectingPaths + [tempList];
      }
      i := i + 1;
    }
  }

  /** The path list `__is_winning_move` builds: the straight paths, then the
      diagonals for (-1, 1), (1, -1), (-1, -1) and (1, 1). */
  method GetCandidates(indexes: Coord) returns (intersectingPaths: seq<Path>)
    ensures intersectingPaths == Candidates(indexes)
  {
    intersectingPaths := GetStraightPaths(indexes);
    var diagonals := GetDiagonals(indexes, -1, 1);
    intersectingPaths := intersectingPaths + diagonals;
    diagonals := GetDiagonals(indexes, 1, -1);
    intersectingPaths := intersectingPaths + diagonals;
    diagonals := GetDiagonals(indexes, -1, -1);
    intersectingPaths := intersectingPaths + diagonals;
    diagonals := GetDiagonals(indexes, 1, 1);
    intersectingPaths := intersectingPaths + diagonals;
  }
}
