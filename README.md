# N-dimensional tic-tac-toe board, in Dafny

This project models the `Board` engine of `tictactoe.py`. The board has D
dimensions, and each axis runs 0..D, so it holds (D+1)^D cells. Two players
(ids 0 and 1, tokens `O` and `X`) claim cells by typing dotted coordinates such
as `1.0.2`.

The model covers these operations:

- validating a coordinate string and claiming its cell, with the numeric
  result codes of `place_token`;
- counting rounds, and `is_full` / `has_winner`;
- the win check after each placement: the D axis-aligned paths through the
  claimed cell, then the "diagonals" built by `__get_diagonals` for four
  (up, dn) pairs and filtered by `__is_slope_correct`;
- the text of the winning path.

Modules:

- `Text` models Python's `str.split`, `str.isnumeric`, `int()` and `str()` on
  ASCII digits.
- `Storage` models the nested board that `__board_creator` builds and the
  lookup that `__get_space_recur` performs. It also gives the flat layout the
  model uses instead: a `seq` of cells addressed by a mixed-radix offset, with
  the most significant axis first. `LookupIsOffset` proves the two layouts
  agree.
- `Lines` gives the candidate paths as functions. It also has tictactoe.py's
  loops as methods, each proved equal to its function.
- `LineFacts` proves what those paths look like and what the win scan finds.
- `Game` holds the `Player`, `Space` and `Board` classes. Their fields are
  updated in place.
- `Scenarios` gives concrete boards. They show wins the check finds, a win it
  misses, and a broken path it accepts.

## Model

| member | source | states |
|---|---|---|
| Game.TokenOf | tictactoe.py:11-16 | a player's token is never the unclaimed marker " " |
| Game.TokenClasses | tictactoe.py:11-16 | two ids get the same token exactly when both are negative, both are 0, or both are positive, so seats 0 and 1 differ |
| Game.Player.constructor | tictactoe.py:7-16 | the new player has the given id, a token fixed by that id, and an empty move history |
| Game.Player.SaveMove | tictactoe.py:24-25 | the move history grows by exactly the given move, at its end |
| Game.Space.constructor | tictactoe.py:36-37 | a new space is unclaimed |
| Game.Space.PlaceToken | tictactoe.py:39-44 | it returns true exactly when the space was unclaimed; only then does the owner become the new token, otherwise the owner is unchanged, so a space is claimed at most once |
| Game.BuildSpaces | tictactoe.py:57-64 | builds (D+1)^dims distinct, fresh, unclaimed spaces, or none when dims < 1 |
| Storage.BoardCreatorShape | tictactoe.py:57-64 | the nested board is dims levels of D+1 entries whose cells, in order, are (D+1)^dims unclaimed owners |
| Storage.BoardCreator | tictactoe.py:57-64 | for dims >= 1 the nested board is dims levels deep, with D+1 entries per level and cells at the bottom |
| Storage.LookupIsOffset | tictactoe.py:112-116 | descending one level per index reaches the cell at the mixed-radix offset of the coordinate in the flattened board |
| Storage.Lookup | tictactoe.py:112-116 | on a board of that shape with one index per level, the descent succeeds exactly when every index is a valid Python list index (-(D+1)..D, negatives counting from the end), and then it reaches a cell |
| Storage.LookupOutOfRange | tictactoe.py:112-116 | a component above D makes the descent fail (Python's `IndexError`) |
| Storage.OffsetInjective | tictactoe.py:102-116 | distinct coordinates address distinct cells |
| Storage.ClaimedAfterClaim | tictactoe.py:128-129 | claiming an unclaimed cell raises the count of claimed cells by exactly one |
| Storage.ClaimedBounds | tictactoe.py:66-67 | the claimed count equals the number of cells exactly when every cell is claimed, and is 0 exactly when none is |
| Game.Board.constructor | tictactoe.py:49-55 | two fresh players with ids 0 and 1 and empty histories; (D+1)^D newly allocated spaces, all unclaimed, laid out as `__board_creator` builds them; round 0, no winner, empty winning path |
| Game.Board.IsFull | tictactoe.py:66-67 | the round count reaching (D+1)^D is the same as every cell being claimed |
| Game.Board.HasWinner | tictactoe.py:69-70 | true exactly when a winner is recorded, including the player with id 0 |
| Game.Outcome.Code | tictactoe.py:118-134 | the codes are 0..3, and 0 is exactly success |
| Game.ParseCoordinate | tictactoe.py:119-126 | "not numeric" exactly when some "."-separated part is not all digits (so empty parts count), checked before the count; "wrong count" exactly when all parts are numeric but there are not D of them; accepted exactly when, in addition, every value is at most D, and then the values are the parts read as decimals |
| Game.CoordinateRoundTrip | tictactoe.py:119-126 | formatting any cell's coordinate with dots and parsing it back gives the same coordinate |
| Game.Board.PlaceToken | tictactoe.py:118-134 | the result is the parse error, or "occupied" or "success" according to the old owner of the addressed cell. On any failure, cells, round, winner, winning path and history are unchanged. On success, exactly that cell takes the player's token, round grows by one, the string is appended to the history, and the winner becomes the win check's result, so a later non-winning move resets it to None |
| Game.ReadCoordinate | tictactoe.py:119-126 | the checks, in `place_token`'s order (every part numeric, then D parts, then each value on the board), give exactly the verdict and values of `ParseCoordinate` |
| Game.Board.Claim | tictactoe.py:128-134 | "success" exactly when the addressed cell was unclaimed, otherwise "occupied" with nothing changed; on success the cell takes the token, round grows by one, the string is appended to the history, and the winner is the win check's result |
| Game.Board.ClaimCell | tictactoe.py:128-129 | the cell is claimed exactly when it was free; only that cell changes, and round grows by one exactly on a claim, so it still counts the claimed cells |
| Game.Board.RecordMove | tictactoe.py:130-131 | the cells are unchanged; the history grows by the coordinate string; winner and winning path are set from the win check |
| Lines.GetStraightPaths | tictactoe.py:158-165 | the loop builds exactly the straight paths through the coordinate |
| LineFacts.StraightPathsShape | tictactoe.py:158-165 | there are D straight paths; path i has D+1 points equal to the coordinate except that axis i runs 0..D in order, so point c[i] is the coordinate itself |
| Lines.GetDiagonals | tictactoe.py:184-209 | the nested loops build exactly the slope-checked candidates for axis starts 0..D-2 |
| Lines.BuildCandidate | tictactoe.py:187-205 | the middle loop builds exactly the D+1 points of the candidate for axis start i |
| Lines.NextPoint | tictactoe.py:189-205 | the point appended at step j is point j of the candidate: the coordinate itself at j = 0, otherwise one step from point j-1, with the axes below i copied from the coordinate |
| Lines.StepAxes | tictactoe.py:193-200 | the axes below i are untouched, and every axis from i on takes one wrapped step in its direction |
| LineFacts.CandidateShape | tictactoe.py:186-205 | a diagonal candidate has D+1 on-board points and starts at the coordinate; axes below i stay pinned; on axis a >= i, point j is (c[a] + j*dir(a)) mod (D+1), where dir(a) is `up` when 2*c[a] >= D and `dn` otherwise |
| LineFacts.CandidateStep | tictactoe.py:193-200 | each step moves every axis a >= i by its direction, modulo D+1 |
| LineFacts.WrapStep | tictactoe.py:196-200 | the wrapped step keeps a component in 0..D and equals (v + delta) mod (D+1) |
| LineFacts.DiagonalsFilter | tictactoe.py:184-209 | at most D-1 paths per call; every returned path is the candidate of some i <= D-2 that passes the slope check with start i, and every such candidate is returned |
| Lines.IsSlopeCorrect | tictactoe.py:214-227 | the triple loop answers exactly whether every point has a different point of the list adjacent to it (differing by exactly 1 on every axis from the start on) |
| Lines.GetCandidates | tictactoe.py:151-172 | the list the win check scans is the straight paths, then the diagonals for (-1,1), (1,-1), (-1,-1) and (1,1), in that order |
| LineFacts.CandidatesOnBoard | tictactoe.py:151-172 | every candidate has D+1 on-board points and contains the claimed coordinate |
| Lines.FirstOwned | tictactoe.py:174-181 | the result is the first path owned entirely by the token, with no earlier owned path; None exactly when no path is owned |
| LineFacts.WinIndex | tictactoe.py:174-181 | a reported win names a candidate through the claimed cell that the token owns entirely; no report means no candidate is owned |
| LineFacts.StraightLineWins | tictactoe.py:158-181 | owning a whole straight path through the claimed cell is always reported as a win, at that path or an earlier one |
| LineFacts.OwnedCandidateWins | tictactoe.py:174-181 | owning any candidate through the claimed cell is reported as a win, at that candidate or an earlier one |
| LineFacts.FirstOwnedAt | tictactoe.py:174-180 | the scan stops at the first owned path |
| Game.Board.OwnsPath | tictactoe.py:175-177 | the inner loop answers exactly whether the token owns every point of the path |
| Game.Board.ScanPaths | tictactoe.py:174-180 | the scan returns the position of the first path the token owns entirely, or None when it owns none |
| Game.Board.IsWinningMove | tictactoe.py:151-181 | on a win it returns the player's id and records the first owned candidate as the winning path; otherwise it returns None and leaves the winning path as it was |
| Game.PointText | tictactoe.py:231-239 | the line for one point is its components in decimal, separated by single spaces, in parentheses, ending in a newline |
| Game.PointRoundTrip | tictactoe.py:231-239 | the text between the parentheses splits on spaces back into the point's components |
| Game.Board.GetWinningPath | tictactoe.py:229-240 | the text is one such line per point of the winning path, in order |
| Text.JoinSplit | tictactoe.py:119 | joining the parts of a split with the separator gives back the string |
| Text.SplitJoin | tictactoe.py:119 | splitting a join of separator-free parts gives back the parts |
| Text.ParseShow | tictactoe.py:107-109 | reading back the decimal text of a number gives the number |
| Text.ShowParse | tictactoe.py:109 | reading a digit string without a leading zero and writing the number back gives the same string |
| Text.Split | tictactoe.py:119 | there is at least one part, and no part contains the separator |
| Text.ParseNat | tictactoe.py:109 | a digit string reads as 0 exactly when every digit is 0 |
| Text.ShowNat | tictactoe.py:236 | the decimal text of a natural number is a non-empty digit string without a leading zero |
| Scenarios.MainDiagonalFromCorner | tictactoe.py:184-209 | on the 3x3 board the main diagonal is the one (-1,1) diagonal through (0,0), and owning it is reported as a win |
| Scenarios.MainDiagonalFromCentre | tictactoe.py:184-209 | the same from the centre (1,1): both axes step down and wrap |
| Scenarios.MainDiagonalFromFarCorner | tictactoe.py:184-209 | the same from the corner (2,2) |
| Scenarios.CentreMissesAntiDiagonal | tictactoe.py:193-200 | from the centre of the 3x3 board the anti-diagonal is not a candidate, so a player owning it who claims the centre last is not reported as the winner |
| Scenarios.CornerFindsAntiDiagonal | tictactoe.py:184-209 | the anti-diagonal is a candidate from the corner (0,2) |
| Scenarios.WrappedCandidate | tictactoe.py:193-204 | on the 4x4x4 board the candidate from (0,2,0) with axis 0 pinned wraps from 3 to 0 on axis 1 |
| Scenarios.WrappedPathAccepted | tictactoe.py:206-208 | that broken path passes the slope check and is among the candidates |
| Scenarios.ParseEmptyPart | tictactoe.py:121-123 | "1..2" is rejected as not numeric |
| Scenarios.ParseTrailingDot | tictactoe.py:121-123 | "1.2." is rejected as not numeric |
| Scenarios.ParseTooFew | tictactoe.py:125-126 | "1" on a 2-dimensional board has the wrong count |
| Scenarios.ParseBeyondBoard | tictactoe.py:110-116 | "3.0" on a 2-dimensional board is out of range; "2.0" is accepted as (2, 0) |
| Scenarios.FreshBoardMoves | tictactoe.py:118-134 | on a newly built 3x3 board, claiming "2.0" succeeds, and claiming the same cell again is refused as occupied |

## Left out

- The board is stored flat instead of as nested lists. `Storage.LookupIsOffset` ties the two layouts together. Aliasing between the nested lists is not modelled, but tictactoe.py never shares a sub-list.
- `display` and `__display_recur` (tictactoe.py:75-100) only print to the console.
- The script's setup and game loop (tictactoe.py:243-318) are not modelled: input, printing, retry counters, `sys.exit` and turn alternation.
- `__get_random_coordinate`, `place_random` and `get_center_coordinates` (tictactoe.py:136-149) depend on randomness.
- `Player.get_last_move` (tictactoe.py:30-31) always raises `IndexError`, so it has no behaviour to model.
- `get_id`, `get_token`, `get_owner`, `get_move_history` and `get_winner` are plain field reads. They are the fields `index`, `token`, `owner`, `moveList` and `winner`.
- The diagnostic `print` in `__get_space` (tictactoe.py:104) is dropped. Its `None` branch cannot be reached from `place_token`, which checks the count first.
- `math.pow` in `is_full` returns a float. It is modelled as the integer power `Pow`.
- The float comparison `indexes[a] >= D / 2` is modelled as `2 * indexes[a] >= D`.
- `str.isnumeric` also accepts non-ASCII numerals that `int()` then rejects. Only ASCII digits are modelled.
- A numeric component greater than D makes `__get_space_recur` raise `IndexError`. This is modelled as the extra outcome `OutOfRange`, which has no code and changes nothing.
- Game.Board.constructor: requires at least one dimension. With 0 dimensions, `__board_creator` returns an empty list, which is not (D+1)^0 = 1 cells, and the game script never builds such a board.
- Lines.IsSlopeCorrect: requires all points to have the same length. Its only call site, `__get_diagonals` (tictactoe.py:206), passes D+1 points of D components each, so points of other lengths never reach it. What Python does with a shorter point (an `IndexError` when it is `coord_list[j]` and `this_point_in_slope` is still true, otherwise no error) is not modelled.
- Game.Board.IsWinningMove: takes the parsed coordinate rather than re-parsing the string. `place_token` has already validated the string, and `int()` yields the same values.
