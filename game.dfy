/** The game objects: players with their tokens and move history, claim-once
    spaces, and the board that validates a coordinate string, claims a cell,
    counts rounds and runs the win check after each placement. */
module Game {
  import opened Text
  import opened Storage
  import opened Lines
  import opened LineFacts

  datatype Result<T, E> = Ok(value: T) | Err(error: E)

  /** The token a player places, fixed by the player's id: "-" for a negative
      id (the centre blocker), "O" for 0 and "X" for any other id. */
  function TokenOf(id: int): (t: char)
    ensures t != Unclaimed
  {
    if id < 0 then '-' else if id == 0 then 'O' else 'X'
  }

  /** Two ids share a token exactly when both are negative, both are 0, or
      both are positive; in particular the two seats 0 and 1 differ. */
  lemma TokenClasses(a: int, b: int)
    ensures TokenOf(a) == TokenOf(b) <==> (a < 0 && b < 0) || (a == 0 && b == 0) || (a > 0 && b > 0)
  {
  }

  class Player {
    const index: int
    const token: char := TokenOf(index)
    var moveList: seq<string>

    constructor (index: int)
      ensures this.index == index && moveList == []
    {
      this.index := index;
      moveList := [];
    }

    /** `save_move`: the history only grows, at its end. */
    method SaveMove(move: string)
      modifies this
      ensures moveList == old(moveList) + [move]
    {
      moveList := moveList + [move];
    }
  }

  class Space {
    var owner: char

    constructor ()
      ensures owner == Unclaimed
    {
      owner := Unclaimed;
    }

    /** `Space.place_token`: claims the space only if nobody owns it yet. */
    method PlaceToken(newOwner: char) returns (claimed: bool)
      modifies this
      ensures claimed <==> old(owner) == Unclaimed
      ensures owner == if claimed then newOwner else old(owner)
    {
      if owner == Unclaimed {
        owner := newOwner;
        claimed := true;
      } else {
        claimed := false;
      }
    }
  }

  /** `__board_creator(dims)` with the nesting flattened: D+1 blocks, each a
      freshly built sub-board (or a fresh space at the last level), so the
      result is (D+1)^dims distinct new unclaimed spaces. */
  method BuildSpaces(dims: int, D: nat) returns (result: seq<Space>)
    ensures |result| == if dims < 1 then 0 else Pow(D + 1, dims)
    ensures forall i :: 0 <= i < |result| ==> fresh(result[i]) && result[i].owner == Unclaimed
    ensures forall i, j :: 0 <= i < j < |result| ==> result[i] != result[j]
    decreases dims
  {
    result := [];
    if dims < 1 {
      return;
    }
    var block := if dims == 1 then 1 else Pow(D + 1, dims - 1);
    var i := 0;
    while i < D + 1
      invariant 0 <= i <= D + 1
      invariant |result| == i * block
      invariant forall k :: 0 <= k < |result| ==> fresh(result[k]) && result[k].owner == Unclaimed
      invariant forall k, l :: 0 <= k < l < |result| ==> result[k] != result[l]
    {
      var part: seq<Space>;
      if dims == 1 {
        var space := new Space();
        part := [space];
      } else {
        part := BuildSpaces(dims - 1, D);
      }
      assert forall k, l :: 0 <= k < |result| && 0 <= l < |part| ==> result[k] != part[l];
      result := result + part;
      i := i + 1;
    }
  }

  /** The outcome of `place_token`; the first four are its return codes. */
  datatype Outcome = Success | NonNumeric | WrongCount | Occupied | OutOfRange {
    /** The code `place_token` returns. A component beyond D makes Python
        raise `IndexError` instead, so that outcome has no code. */
    function Code(): (code: int)
      requires !OutOfRange?
      ensures 0 <= code <= 3
      ensures code == 0 <==> Success?
    {
      match this
      case Success => 0
      case NonNumeric => 1
      case WrongCount => 2
      case Occupied => 3
    }
  }

  predicate AllNumeric(parts: seq<string>) {
    forall k :: 0 <= k < |parts| ==> IsNumeric(parts[k])
  }

  /** How `place_token` reads a coordinate string: every "."-separated part is
      checked to be numeric first, then their number against D, then (inside
      the lookup) each value against the side of the board. */
  function ParseCoordinate(coordinate: string, D: nat): (r: Result<seq<nat>, Outcome>)
    ensures r == Err(NonNumeric) <==> !AllNumeric(Split(coordinate, '.'))
    ensures r == Err(WrongCount) <==> AllNumeric(Split(coordinate, '.')) && |Split(coordinate, '.')| != D
    ensures r.Ok? ==> IsCoordinate(r.value, D) && |Split(coordinate, '.')| == D
    ensures r.Ok? ==> forall k :: 0 <= k < D ==> r.value[k] == ParseNat(Split(coordinate, '.')[k])
    ensures r.Ok? <==> AllNumeric(Split(coordinate, '.')) && |Split(coordinate, '.')| == D &&
                       forall k :: 0 <= k < D ==> ParseNat(Split(coordinate, '.')[k]) <= D
    ensures r.Err? ==> r.error in {NonNumeric, WrongCount, OutOfRange}
  {
    var indexes := Split(coordinate, '.');
    if !AllNumeric(indexes) then Err(NonNumeric)
    else if |indexes| != D then Err(WrongCount)
    else
      var values := seq(|indexes|, k requires 0 <= k < |indexes| => ParseNat(indexes[k]));
      if !InRange(values, D) then Err(OutOfRange) else Ok(values)
  }

  /** The checks `place_token` makes on the coordinate string, in its order:
      every "."-separated part numeric, then D parts, then each value on the
      board. */
  method ReadCoordinate(coordinate: string, D: nat) returns (parsed: Result<seq<nat>, Outcome>)
    ensures parsed == ParseCoordinate(coordinate, D)
  {
    var indexes := Split(coordinate, '.');
    var n := 0;
    while n < |indexes|
      invariant 0 <= n <= |indexes|
      invariant forall k :: 0 <= k < n ==> IsNumeric(indexes[k])
    {
      if !IsNumeric(indexes[n]) {
        return Err(NonNumeric);
      }
      n := n + 1;
    }
    if |indexes| != D {
      return Err(WrongCount);
    }
    var values := seq(|indexes|, k requires 0 <= k < |indexes| => ParseNat(indexes[k]));
    if !InRange(values, D) {
      return Err(OutOfRange);
    }
    return Ok(values);
  }

  /** The coordinate string of `c`: its components in decimal, joined by ".". */
  function FormatCoordinate(c: seq<nat>): string
    requires |c| >= 1
  {
    Join(seq(|c|, k requires 0 <= k < |c| => ShowNat(c[k])), '.')
  }

  /** Every coordinate of the board, written in the coordinate string format,
      reads back as itself. */
  lemma CoordinateRoundTrip(c: seq<nat>, D: nat)
    requires D >= 1 && IsCoordinate(c, D)
    ensures ParseCoordinate(FormatCoordinate(c), D) == Ok(c)
  {
    var parts := seq(|c|, k requires 0 <= k < |c| => ShowNat(c[k]));
    forall k | 0 <= k < |parts|
      ensures '.' !in parts[k] && ParseNat(parts[k]) == c[k]
    {
      ParseShow(c[k]);
    }
    SplitJoin(parts, '.');
    assert Split(FormatCoordinate(c), '.') == parts;
    assert AllNumeric(parts);
    assert seq(|parts|, k requires 0 <= k < |parts| => ParseNat(parts[k])) == c;
  }

  /** `"(" + space-separated components + ")\n"` for one point of a path. */
  function FormatPoint(p: Coord): string {
    "(" + (if p == [] then "" else Join(Components(p), ' ')) + ")\n"
  }

  /** The decimal text of each component of a point. */
  function Components(p: Coord): seq<string> {
    seq(|p|, k requires 0 <= k < |p| => ShowInt(p[k]))
  }

  /** `get_winning_path`'s text: one line per point, in path order. */
  function FormatPath(path: Path): string {
    if path == [] then "" else FormatPath(path[..|path| - 1]) + FormatPoint(path[|path| - 1])
  }

  /** The text between the parentheses of a board point's line splits on
      spaces into its components' decimal forms, which read back as the point. */
  lemma PointRoundTrip(p: Coord, D: nat)
    requires |p| >= 1 && InRange(p, D)
    ensures var line := FormatPoint(p);
      line[0] == '(' && line[|line| - 2..] == ")\n" &&
      var parts := Split(line[1..|line| - 2], ' ');
      |parts| == |p| && forall k :: 0 <= k < |p| ==> IsNumeric(parts[k]) && ParseNat(parts[k]) == p[k]
  {
    var parts := Components(p);
    forall k | 0 <= k < |parts|
      ensures ' ' !in parts[k] && IsNumeric(parts[k]) && ParseNat(parts[k]) == p[k]
    {
      ParseShow(p[k]);
    }
    SplitJoin(parts, ' ');
    var line := FormatPoint(p);
    assert line[1..|line| - 2] == Join(parts, ' ');
  }

  /** The line `get_winning_path` writes for one point: a space after every
      component but the last. */
  method PointText(coord: Coord) returns (line: string)
    ensures line == FormatPoint(coord)
  {
    line := "(";
    var index := 0;
    ghost var shown: seq<string> := [];
    while index < |coord|
      invariant 0 <= index <= |coord|
      invariant shown == Components(coord)[..index]
      invariant index == 0 ==> line == "("
      invariant 0 < index < |coord| ==> line == "(" + Join(shown, ' ') + " "
      invariant 0 < index == |coord| ==> line == "(" + Join(shown, ' ')
    {
      line := line + ShowInt(coord[index]);
      if index > 0 {
        JoinAppend(shown, ShowInt(coord[index]), ' ');
      }
      assert Components(coord)[..index + 1] == shown + [ShowInt(coord[index])];
      shown := shown + [ShowInt(coord[index])];
      index := index + 1;
      if index != |coord| {
        line := line + " ";
      }
    }
    assert shown == Components(coord);
    line := line + ")\n";
  }

  class Board {
    const dimensions: nat
    const players: seq<Player>
    /** The cells, flattened: the cell at coordinate c is `spaces[Offset(c, dimensions)]`. */
    const spaces: seq<Space>
    var round: nat
    var winner: Option<int>
    var winningPath: Path

    /** The owner of every cell, in storage order. */
    function Cells(): seq<char>
      reads spaces
    {
      seq(|spaces|, i requires 0 <= i < |spaces| reads spaces => spaces[i].owner)
    }

    /** (D+1)^D distinct spaces, and `round` counts the claimed ones. */
    ghost predicate Valid()
      reads this`round, spaces
    {
      dimensions >= 1 &&
      |spaces| == Pow(dimensions + 1, dimensions) &&
      (forall i, j :: 0 <= i < j < |spaces| ==> spaces[i] != spaces[j]) &&
      round == Claimed(Cells())
    }

    /** `Board(dimensions)`: two fresh players 0 and 1, the nested board the
        creator builds (all unclaimed), round 0, no winner, no winning path. */
    constructor (dimensions: nat)
      requires dimensions >= 1
      ensures Valid() && this.dimensions == dimensions
      ensures Cells() == Flatten(BoardCreator(dimensions, dimensions))
      ensures |Cells()| == Pow(dimensions + 1, dimensions) && forall i :: 0 <= i < |Cells()| ==> Cells()[i] == Unclaimed
      ensures round == 0 && winner == None && winningPath == []
      ensures forall i :: 0 <= i < |spaces| ==> fresh(spaces[i])
      ensures |players| == 2 && fresh(players[0]) && fresh(players[1])
      ensures players[0].index == 0 && players[1].index == 1
      ensures players[0].moveList == [] && players[1].moveList == []
    {
      var first := new Player(0);
      var second := new Player(1);
      var built := BuildSpaces(dimensions, dimensions);
      this.dimensions := dimensions;
      players := [first, second];
      spaces := built;
      round := 0;
      winner := None;
      winningPath := [];
      new;
      BoardCreatorShape(dimensions, dimensions);
      assert Cells() == Blank(Pow(dimensions + 1, dimensions));
      ClaimedBounds(Cells());
    }

    /** `is_full`: the round count has reached (D+1)^D, which happens exactly
        when every cell is claimed. */
    function IsFull(): (full: bool)
      reads this, spaces
      requires Valid()
      ensures full <==> forall i :: 0 <= i < |Cells()| ==> Cells()[i] != Unclaimed
    {
      ClaimedBounds(Cells());
      round == Pow(dimensions + 1, dimensions)
    }

    /** `has_winner`: a winner is recorded, whatever its id (0 included). */
    function HasWinner(): (has: bool)
      reads this
      ensures has <==> winner != None
    {
      winner.Some?
    }

    /** The inner loop of `__is_winning_move`: whether `token` owns every
        point of `path`. */
    method OwnsPath(path: Path, token: char) returns (solutionInPath: bool)
      requires Valid()
      requires forall j :: 0 <= j < |path| ==> IsCoordinate(path[j], dimensions)
      ensures solutionInPath == OwnedBy(path, Cells(), token, dimensions)
    {
      solutionInPath := true;
      var j := 0;
      while j < |path|
        invariant 0 <= j <= |path|
        invariant solutionInPath <==> forall j' :: 0 <= j' < j ==> Cells()[Offset(path[j'], dimensions)] == token
      {
        solutionInPath := solutionInPath && spaces[Offset(path[j], dimensions)].owner == token;
        j := j + 1;
      }
    }

    /** `__is_winning_move`: inspect the straight paths, then the diagonals for
        (-1, 1), (1, -1), (-1, -1) and (1, 1); the first path the player owns
        entirely becomes the winning path and the player's id is returned;
        otherwise nothing is returned and the winning path is left alone. */
    method IsWinningMove(indexes: Coord, player: Player) returns (w: Option<int>)
      requires Valid() && IsCoordinate(indexes, dimensions)
      modifies this`winningPath
      ensures Valid()
      ensures WinIndex(indexes, Cells(), player.token).Some? ==>
        w == Some(player.index) && winningPath == Candidates(indexes)[WinIndex(indexes, Cells(), player.token).value]
      ensures WinIndex(indexes, Cells(), player.token).None? ==> w == None && winningPath == old(winningPath)
    {
      var intersectingPaths := GetCandidates(indexes);
      CandidatesOnBoard(indexes);
      var found := ScanPaths(intersectingPaths, player.token);
      if found.Some? {
        winningPath := intersectingPaths[found.value];
        return Some(player.index);
      }
      return None;
    }

    /** The loop of `__is_winning_move`: the position of the first path whose
        every cell the token owns. */
    method ScanPaths(paths: seq<Path>, token: char) returns (found: Option<nat>)
      requires Valid() && OnBoard(paths, dimensions)
      ensures found == FirstOwned(paths, Cells(), token, dimensions)
    {
      var n := 0;
      while n < |paths|
        invariant 0 <= n <= |paths|
        invariant forall k :: 0 <= k < n ==> !OwnedBy(paths[k], Cells(), token, dimensions)
      {
        var solutionInPath := OwnsPath(paths[n], token);
        if solutionInPath {
          FirstOwnedAt(paths, Cells(), token, dimensions, n);
          return Some(n);
        }
        n := n + 1;
      }
      return None;
    }

    /** `place_token`: returns 1 when a part is not numeric (checked first), 2
        when the number of parts is not D, 3 when the cell is already claimed,
        changing nothing in those cases; otherwise claims the cell for the
        player's token, adds one to the round, records the win check's result
        as the winner (so a later non-winning move resets it) and appends the
        coordinate string to the player's history, returning 0. */
    method PlaceToken(coordinate: string, player: Player) returns (result: Outcome)
      requires Valid()
      modifies this, spaces, player
      ensures Valid()
      ensures var parsed := ParseCoordinate(coordinate, dimensions);
        if parsed.Err? then result == parsed.error
        else result == if old(Cells())[Offset(parsed.value, dimensions)] == Unclaimed then Success else Occupied
      ensures result != Success ==>
        round == old(round) && Cells() == old(Cells()) && winner == old(winner) &&
        winningPath == old(winningPath) && player.moveList == old(player.moveList)
      ensures result == Success ==>
        var c := ParseCoordinate(coordinate, dimensions).value;
        Cells() == old(Cells())[Offset(c, dimensions) := player.token] &&
        round == old(round) + 1 &&
        player.moveList == old(player.moveList) + [coordinate] &&
        (WinIndex(c, Cells(), player.token).Some? ==>
          winner == Some(player.index) &&
          winningPath == Candidates(c)[WinIndex(c, Cells(), player.token).value]) &&
        (WinIndex(c, Cells(), player.token).None? ==> winner == None && winningPath == old(winningPath))
    {
      var D := dimensions;
      var parsed := ReadCoordinate(coordinate, D);
      if parsed.Err? {
        return parsed.error;
      }
      result := Claim(parsed.value, coordinate, player);
    }

    /** The second half of `place_token`: claim the cell of a checked
        coordinate, and on success count the round, run the win check and
        record the move. */
    method Claim(values: Coord, coordinate: string, player: Player) returns (result: Outcome)
      requires Valid() && IsCoordinate(values, dimensions)
      modifies this, spaces, player
      ensures Valid()
      ensures result == if old(Cells())[Offset(values, dimensions)] == Unclaimed then Success else Occupied
      ensures result != Success ==>
        round == old(round) && Cells() == old(Cells()) && winner == old(winner) &&
        winningPath == old(winningPath) && player.moveList == old(player.moveList)
      ensures result == Success ==>
        Cells() == old(Cells())[Offset(values, dimensions) := player.token] &&
        round == old(round) + 1 &&
        player.moveList == old(player.moveList) + [coordinate] &&
        (WinIndex(values, Cells(), player.token).Some? ==>
          winner == Some(player.index) &&
          winningPath == Candidates(values)[WinIndex(values, Cells(), player.token).value]) &&
        (WinIndex(values, Cells(), player.token).None? ==> winner == None && winningPath == old(winningPath))
    {
      var claimed := ClaimCell(Offset(values, dimensions), player.token);
      if claimed {
        RecordMove(values, coordinate, player);
        return Success;
      } else {
        return Occupied;
      }
    }

    /** The rest of `place_token`'s success branch: `__is_winning_move` sets
        the winner, then `save_move` adds the move to the player's history. */
    method RecordMove(values: Coord, coordinate: string, player: Player)
      requires Valid() && IsCoordinate(values, dimensions)
      modifies this`winner, this`winningPath, player
      ensures Valid() && Cells() == old(Cells())
      ensures player.moveList == old(player.moveList) + [coordinate]
      ensures WinIndex(values, Cells(), player.token).Some? ==>
        winner == Some(player.index) &&
        winningPath == Candidates(values)[WinIndex(values, Cells(), player.token).value]
      ensures WinIndex(values, Cells(), player.token).None? ==> winner == None && winningPath == old(winningPath)
    {
      winner := IsWinningMove(values, player);
      ghost var after := Cells();
      player.SaveMove(coordinate);
      assert Cells() == after;
    }

    /** `place_token`'s claim: `Space.place_token` takes the token if the space
        was free, and `round += 1` counts each claim. */
    method ClaimCell(offset: nat, token: char) returns (claimed: bool)
      requires Valid() && offset < |spaces| && token != Unclaimed
      modifies spaces[offset], this`round
      ensures Valid()
      ensures claimed <==> old(Cells())[offset] == Unclaimed
      ensures Cells() == if claimed then old(Cells())[offset := token] else old(Cells())
      ensures round == if claimed then old(round) + 1 else old(round)
    {
      ghost var before := Cells();
      claimed := spaces[offset].PlaceToken(token);
      if claimed {
        assert Cells() == before[offset := token];
        ClaimedAfterClaim(before, offset, token);
        round := round + 1;
      } else {
        assert Cells() == before;
      }
    }

    /** `get_winning_path`: the winning path as text, one parenthesised,
        space-separated point per line. */
    method GetWinningPath() returns (result: string)
      ensures result == FormatPath(winningPath)
    {
      result := "";
      var n := 0;
      while n < |winningPath|
        invariant 0 <= n <= |winningPath|
        invariant result == FormatPath(winningPath[..n])
      {
        var line := PointText(winningPath[n]);
        assert winningPath[..n + 1][..n] == winningPath[..n];
        result := result + line;
        n := n + 1;
      }
      assert winningPath[..|winningPath|] == winningPath;
    }
  }
}
