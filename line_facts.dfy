/** What the paths of the win check are: their length, where they start, which
    axes they pin, that they stay on the board, how each step moves, and which
    candidates the slope check lets through. */
module LineFacts {
  import opened Storage
  import opened Lines

  predicate Unit(d: int) {
    d == 1 || d == -1
  }

  // ---------------------------------------------------------------------------
  // Euclidean remainder facts used for the wrapped steps.

  lemma ModUnique(z: int, m: int, q: int, r: int)
    requires m > 0 && 0 <= r < m && z == m * q + r
    ensures z % m == r
  {
    var q' := z / m;
    var k := q - q';
    assert m * k == z % m - r;
    if k >= 1 {
      MulLe(1, k, m);
    } else if k <= -1 {
      MulLe(1, -k, m);
      assert m * k == -(m * -k);
    }
  }

  lemma ModAddMod(x: int, d: int, m: int)
    requires m > 0
    ensures (x % m + d) % m == (x + d) % m
  {
    var r := (x % m + d) % m;
    var q := (x % m + d) / m;
    assert x % m + d == m * q + r;
    assert x == m * (x / m) + x % m;
    assert x + d == m * (x / m + q) + r;
    ModUnique(x + d, m, x / m + q, r);
  }

  /** A wrapped step of ±1 from an in-range value is the step modulo D+1 and
      stays in range. */
  lemma WrapStep(v: int, delta: int, D: nat)
    requires 0 <= v <= D && Unit(delta)
    ensures 0 <= Wrap(v, delta, D) <= D
    ensures Wrap(v, delta, D) == (v + delta) % (D + 1)
  {
    if v + delta < 0 {
      ModUnique(v + delta, D + 1, -1, D);
    } else if v + delta > D {
      ModUnique(v + delta, D + 1, 1, 0);
    } else {
      ModUnique(v + delta, D + 1, 0, v + delta);
    }
  }

  // ---------------------------------------------------------------------------
  // Diagonal candidates.

  /** Every point of a candidate is on the board, keeps the axes below the
      start pinned, and the next point moves every other axis by its
      direction, modulo D+1. */
  lemma DiagPointFacts(c: Coord, up: int, dn: int, i: nat, j: nat)
    requires IsCoordinate(c, |c|) && Unit(up) && Unit(dn) && i <= |c|
    ensures IsCoordinate(DiagPoint(c, up, dn, i, j), |c|)
    ensures forall a :: 0 <= a < i ==> DiagPoint(c, up, dn, i, j)[a] == c[a]
    ensures forall a :: i <= a < |c| ==>
      DiagPoint(c, up, dn, i, j + 1)[a] == (DiagPoint(c, up, dn, i, j)[a] + Dir(c, a, up, dn)) % (|c| + 1)
  {
    var D := |c|;
    var p := DiagPoint(c, up, dn, i, j);
    var next := DiagPoint(c, up, dn, i, j + 1);
    forall a | i <= a < D
      ensures 0 <= p[a] <= D
      ensures next[a] == (p[a] + Dir(c, a, up, dn)) % (D + 1)
    {
      DiagPointClosedForm(c, up, dn, i, j, a);
      assert next[a] == Wrap(p[a], Dir(c, a, up, dn), D);
      WrapStep(p[a], Dir(c, a, up, dn), D);
    }
  }

  /** Each diagonal candidate has D+1 points, starts at the claimed coordinate,
      keeps the axes below its start pinned, stays on the board, and
      moves every other axis j steps in its fixed direction, modulo D+1, by point j. */
  lemma CandidateShape(c: Coord, up: int, dn: int, i: nat)
    requires IsCoordinate(c, |c|) && Unit(up) && Unit(dn) && i <= |c|
    ensures |Candidate(c, up, dn, i)| == |c| + 1
    ensures Candidate(c, up, dn, i)[0] == c
    ensures forall j :: 0 <= j <= |c| ==> IsCoordinate(Candidate(c, up, dn, i)[j], |c|)
    ensures forall j, a :: 0 <= j <= |c| && 0 <= a < i ==> Candidate(c, up, dn, i)[j][a] == c[a]
    ensures forall j, a :: 0 <= j <= |c| && i <= a < |c| ==>
      Candidate(c, up, dn, i)[j][a] == (c[a] + j * Dir(c, a, up, dn)) % (|c| + 1)
  {
    forall j | 0 <= j <= |c|
      ensures IsCoordinate(DiagPoint(c, up, dn, i, j), |c|)
      ensures forall a :: 0 <= a < i ==> DiagPoint(c, up, dn, i, j)[a] == c[a]
      ensures forall a :: i <= a < |c| ==> DiagPoint(c, up, dn, i, j)[a] == (c[a] + j * Dir(c, a, up, dn)) % (|c| + 1)
    {
      DiagPointFacts(c, up, dn, i, j);
      forall a | i <= a < |c|
        ensures DiagPoint(c, up, dn, i, j)[a] == (c[a] + j * Dir(c, a, up, dn)) % (|c| + 1)
      {
        DiagPointClosedForm(c, up, dn, i, j, a);
      }
    }
  }

  /** Each step of a candidate moves every axis from its start by that axis's
      direction (±1), modulo D+1. */
  lemma CandidateStep(c: Coord, up: int, dn: int, i: nat, j: nat)
    requires IsCoordinate(c, |c|) && Unit(up) && Unit(dn) && i <= |c| && j < |c|
    ensures forall a :: i <= a < |c| ==>
      Candidate(c, up, dn, i)[j + 1][a] == (Candidate(c, up, dn, i)[j][a] + Dir(c, a, up, dn)) % (|c| + 1)
  {
    DiagPointFacts(c, up, dn, i, j);
  }

  /** Point `j` of a candidate is the claimed coordinate moved `j` steps along
      every varying axis, modulo D+1. */
  lemma {:induction false} DiagPointClosedForm(c: Coord, up: int, dn: int, i: nat, j: nat, a: nat)
    requires IsCoordinate(c, |c|) && Unit(up) && Unit(dn) && i <= a < |c|
    ensures DiagPoint(c, up, dn, i, j)[a] == (c[a] + j * Dir(c, a, up, dn)) % (|c| + 1)
    decreases j
  {
    var m := |c| + 1;
    var d := Dir(c, a, up, dn);
    if j == 0 {
      ModUnique(c[a], m, 0, c[a]);
    } else {
      DiagPointClosedForm(c, up, dn, i, j - 1, a);
      var p := DiagPoint(c, up, dn, i, j - 1);
      assert DiagPoint(c, up, dn, i, j)[a] == Wrap(p[a], d, |c|);
      WrapStep(p[a], d, |c|);
      ModAddMod(c[a] + (j - 1) * d, d, m);
      assert c[a] + (j - 1) * d + d == c[a] + j * d;
    }
  }

  lemma {:induction false} DiagonalsBelowFilter(c: Coord, up: int, dn: int, n: nat)
    requires n <= |c|
    ensures |DiagonalsBelow(c, up, dn, n)| <= n
    ensures forall p :: p in DiagonalsBelow(c, up, dn, n) ==>
      exists i :: 0 <= i < n && p == Candidate(c, up, dn, i) && SlopeCorrect(p, i)
    ensures forall i :: 0 <= i < n && SlopeCorrect(Candidate(c, up, dn, i), i) ==>
      Candidate(c, up, dn, i) in DiagonalsBelow(c, up, dn, n)
  {
    if n > 0 {
      DiagonalsBelowFilter(c, up, dn, n - 1);
    }
  }

  /** `__get_diagonals` returns at most D-1 paths; each is the candidate for
      some axis start i <= D-2 that passes the slope check from axis i on, and
      each such candidate is returned. */
  lemma DiagonalsFilter(c: Coord, up: int, dn: int)
    ensures |c| >= 1 ==> |Diagonals(c, up, dn)| <= |c| - 1
    ensures forall p :: p in Diagonals(c, up, dn) ==>
      exists i :: 0 <= i && i + 1 < |c| && p == Candidate(c, up, dn, i) && SlopeCorrect(p, i)
    ensures forall i :: 0 <= i && i + 1 < |c| && SlopeCorrect(Candidate(c, up, dn, i), i) ==>
      Candidate(c, up, dn, i) in Diagonals(c, up, dn)
  {
    DiagonalsBelowFilter(c, up, dn, if |c| >= 1 then |c| - 1 else 0);
  }

  // ---------------------------------------------------------------------------
  // Straight paths and the whole candidate list.

  /** There are D straight paths; path i runs axis i through 0, 1, ..., D in
      order, agrees with the claimed coordinate on every other axis, and so
      passes through it at position c[i]. */
  lemma StraightPathsShape(c: Coord)
    requires IsCoordinate(c, |c|)
    ensures |StraightPaths(c)| == |c|
    ensures forall i :: 0 <= i < |c| ==> |StraightPaths(c)[i]| == |c| + 1
    ensures forall i, j, a :: 0 <= i < |c| && 0 <= j <= |c| && 0 <= a < |c| ==>
      |StraightPaths(c)[i][j]| == |c| && StraightPaths(c)[i][j][a] == (if a == i then j else c[a])
    ensures forall i :: 0 <= i < |c| ==> StraightPaths(c)[i][c[i]] == c
    ensures OnBoard(StraightPaths(c), |c|)
  {
  }

  lemma DiagonalsOnBoard(c: Coord, up: int, dn: int)
    requires IsCoordinate(c, |c|) && Unit(up) && Unit(dn)
    ensures forall p :: p in Diagonals(c, up, dn) ==>
      |p| == |c| + 1 && p[0] == c && forall j :: 0 <= j < |p| ==> IsCoordinate(p[j], |c|)
  {
    DiagonalsFilter(c, up, dn);
    forall p | p in Diagonals(c, up, dn)
      ensures |p| == |c| + 1 && p[0] == c && forall j :: 0 <= j < |p| ==> IsCoordinate(p[j], |c|)
    {
      var i :| 0 <= i && i + 1 < |c| && p == Candidate(c, up, dn, i) && SlopeCorrect(p, i);
      CandidateShape(c, up, dn, i);
    }
  }

  /** Every path the win check inspects has D+1 points, all on the board, and
      passes through the claimed coordinate. */
  lemma CandidatesOnBoard(c: Coord)
    requires IsCoordinate(c, |c|)
    ensures OnBoard(Candidates(c), |c|)
    ensures forall k :: 0 <= k < |Candidates(c)| ==> |Candidates(c)[k]| == |c| + 1 && c in Candidates(c)[k]
  {
    var D := |c|;
    StraightPathsShape(c);
    DiagonalsOnBoard(c, -1, 1);
    DiagonalsOnBoard(c, 1, -1);
    DiagonalsOnBoard(c, -1, -1);
    DiagonalsOnBoard(c, 1, 1);
    var all := Candidates(c);
    forall k | 0 <= k < |all|
      ensures |all[k]| == D + 1 && c in all[k]
      ensures forall j :: 0 <= j < |all[k]| ==> IsCoordinate(all[k][j], D)
    {
      assert all[k] in all;
      if k < D {
        assert all[k] == StraightPaths(c)[k];
        assert all[k][c[k]] == c;
      } else {
        assert all[k] in Diagonals(c, -1, 1) || all[k] in Diagonals(c, 1, -1)
            || all[k] in Diagonals(c, -1, -1) || all[k] in Diagonals(c, 1, 1);
        assert all[k][0] == c;
      }
    }
  }

  /** The first owned path is the one before which no path is owned. */
  lemma FirstOwnedAt(paths: seq<Path>, cells: seq<char>, tok: char, D: nat, n: nat)
    requires |cells| == Pow(D + 1, D) && OnBoard(paths, D) && n < |paths|
    requires OwnedBy(paths[n], cells, tok, D)
    requires forall k :: 0 <= k < n ==> !OwnedBy(paths[k], cells, tok, D)
    ensures FirstOwned(paths, cells, tok, D) == Some(n)
  {
  }

  /** The scan of `__is_winning_move` over every candidate through the
      claimed coordinate `c`: the position of the first one `tok` owns. */
  function WinIndex(c: Coord, cells: seq<char>, tok: char): (r: Option<nat>)
    requires IsCoordinate(c, |c|) && |cells| == Pow(|c| + 1, |c|)
    ensures OnBoard(Candidates(c), |c|)
    ensures r.Some? ==> r.value < |Candidates(c)| && c in Candidates(c)[r.value]
    ensures r.Some? ==> OwnedBy(Candidates(c)[r.value], cells, tok, |c|)
    ensures r.None? ==> forall k :: 0 <= k < |Candidates(c)| ==> !OwnedBy(Candidates(c)[k], cells, tok, |c|)
  {
    CandidatesOnBoard(c);
    FirstOwned(Candidates(c), cells, tok, |c|)
  }

  /** A straight path through the claimed cell that `tok` owns entirely is
      always reported as a win, by it or by an earlier path. */
  lemma StraightLineWins(c: Coord, cells: seq<char>, tok: char, i: nat)
    requires IsCoordinate(c, |c|) && |cells| == Pow(|c| + 1, |c|) && i < |c|
    requires OwnedBy(StraightPaths(c)[i], cells, tok, |c|)
    ensures WinIndex(c, cells, tok).Some? && WinIndex(c, cells, tok).value <= i
  {
    CandidatesOnBoard(c);
    StraightPathsShape(c);
    assert Candidates(c)[i] == StraightPaths(c)[i];
  }

  /** Any candidate through the claimed cell that `tok` owns entirely makes
      the scan report a win, at that candidate or an earlier one. */
  lemma OwnedCandidateWins(c: Coord, cells: seq<char>, tok: char, k: nat)
    requires IsCoordinate(c, |c|) && |cells| == Pow(|c| + 1, |c|) && k < |Candidates(c)|
    requires OnBoard(Candidates(c), |c|) && OwnedBy(Candidates(c)[k], cells, tok, |c|)
    ensures WinIndex(c, cells, tok).Some? && WinIndex(c, cells, tok).value <= k
  {
  }
}
