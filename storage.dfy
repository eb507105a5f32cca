/** Storage of an N-dimensional board: D nested levels of D+1 entries, as the
    board builds it, and the flat sequence of (D+1)^D owners, read through a
    mixed-radix offset (most significant axis first), that the board keeps. */
module Storage {

  datatype Option<T> = None | Some(value: T)

  /** The owner marker of a cell nobody has claimed yet. */
  const Unclaimed: char := ' '

  function Pow(b: nat, e: nat): (r: nat)
    ensures b >= 1 ==> r >= 1
  {
    if e == 0 then 1 else b * Pow(b, e - 1)
  }

  /** Every component is an index 0..D along its axis. */
  predicate InRange(p: seq<int>, D: nat) {
    forall k :: 0 <= k < |p| ==> 0 <= p[k] <= D
  }

  /** A coordinate of the D-dimensional board: D in-range components. */
  predicate IsCoordinate(p: seq<int>, D: nat) {
    |p| == D && InRange(p, D)
  }

  lemma MulLe(a: nat, b: nat, c: nat)
    requires a <= b
    ensures a * c <= b * c
  {
  }

  /** Position of cell `p` in the flat storage: `p` read as a number in base D+1. */
  function Offset(p: seq<int>, D: nat): (r: nat)
    requires InRange(p, D)
    ensures r < Pow(D + 1, |p|)
  {
    if |p| == 0 then 0
    else
      assert InRange(p[1..], D) by { assert forall k :: 0 <= k < |p| - 1 ==> p[1..][k] == p[k + 1]; }
      var rest := Offset(p[1..], D);
      var P := Pow(D + 1, |p| - 1);
      MulLe(p[0] + 1, D + 1, P);
      assert (p[0] + 1) * P == p[0] * P + P;
      p[0] * P + rest
  }

  lemma LeadingDigit(x: nat, y: nat, a: nat, b: nat, P: nat)
    requires a < P && b < P
    requires x * P + a == y * P + b
    ensures x == y && a == b
  {
    if x < y {
      MulLe(x + 1, y, P);
    } else if y < x {
      MulLe(y + 1, x, P);
    }
  }

  /** Distinct coordinates address distinct cells. */
  lemma {:induction false} OffsetInjective(p: seq<int>, q: seq<int>, D: nat)
    requires InRange(p, D) && InRange(q, D) && |p| == |q|
    requires Offset(p, D) == Offset(q, D)
    ensures p == q
  {
    if |p| > 0 {
      LeadingDigit(p[0], q[0], Offset(p[1..], D), Offset(q[1..], D), Pow(D + 1, |p| - 1));
      OffsetInjective(p[1..], q[1..], D);
      assert p == [p[0]] + p[1..] && q == [q[0]] + q[1..];
    }
  }

  /** One Python list level (`list` of sub-lists) or one `Space`, seen through its owner. */
  datatype Nested = Cell(owner: char) | Level(items: seq<Nested>)

  /** `__board_creator(dims)` on a board whose side is D+1: D+1 unclaimed cells
      at the last level, D+1 recursively built levels above it, and an empty
      list when `dims` is below 1. */
  function BoardCreator(dims: int, D: nat): (t: Nested)
    ensures dims >= 1 ==> Shaped(t, dims, D)
    decreases dims
  {
    if dims < 1 then Level([])
    else Level(seq(D + 1, _ => if dims == 1 then Cell(Unclaimed) else BoardCreator(dims - 1, D)))
  }

  /** `t` is `d` nested levels of D+1 entries each, with cells at the bottom. */
  predicate Shaped(t: Nested, d: nat, D: nat)
    decreases t
  {
    if d == 0 then t.Cell?
    else t.Level? && |t.items| == D + 1 && forall k :: 0 <= k < |t.items| ==> Shaped(t.items[k], d - 1, D)
  }

  /** Owners of the cells under `t`, level by level, first entry first. */
  function Flatten(t: Nested): seq<char>
    decreases t, 1
  {
    match t
    case Cell(o) => [o]
    case Level(items) => FlattenAll(items)
  }

  function FlattenAll(items: seq<Nested>): seq<char>
    decreases items, 0
  {
    if items == [] then [] else Flatten(items[0]) + FlattenAll(items[1..])
  }

  /** Python's `xs[i]`: negative indices count from the end; anything else out
      of range raises `IndexError`, given here as `None`. */
  function PyIndex<T>(xs: seq<T>, i: int): (r: Option<T>)
    ensures 0 <= i < |xs| ==> r == Some(xs[i])
    ensures (i >= |xs| || i < -|xs|) ==> r == None
  {
    if 0 <= i < |xs| then Some(xs[i])
    else if -|xs| <= i < 0 then Some(xs[|xs| + i])
    else None
  }

  /** `__get_space_recur(t, idx)`: one level per index, the entry reached by the
      last one. `None` is the exception Python raises on the way. */
  function Lookup(t: Nested, idx: seq<int>): (r: Option<Nested>)
    ensures |idx| >= 1 && t.Level? && |t.items| >= 1 && Shaped(t, |idx|, |t.items| - 1) ==>
      (r.Some? <==> forall k :: 0 <= k < |idx| ==> -|t.items| <= idx[k] < |t.items|) &&
      (r.Some? ==> r.value.Cell?)
    decreases |idx|
  {
    if |idx| == 0 || !t.Level? then None
    else
      var next := PyIndex(t.items, idx[0]);
      if next.None? then None
      else
        assert next.value == t.items[if idx[0] >= 0 then idx[0] else |t.items| + idx[0]];
        if |idx| == 1 then
          assert |t.items| >= 1 && Shaped(t, 1, |t.items| - 1) ==> Shaped(next.value, 0, |t.items| - 1);
          next
        else
          assert forall k :: 0 <= k < |idx| - 1 ==> idx[1..][k] == idx[k + 1];
          assert |t.items| >= 1 && Shaped(t, |idx|, |t.items| - 1) ==>
            Shaped(next.value, |idx| - 1, |t.items| - 1) && next.value.Level? && |next.value.items| == |t.items|;
          Lookup(next.value, idx[1..])
  }

  lemma {:induction false} FlattenLength(t: Nested, d: nat, D: nat)
    requires Shaped(t, d, D)
    ensures |Flatten(t)| == Pow(D + 1, d)
    decreases t, 1
  {
    if d > 0 {
      FlattenAllLength(t.items, d - 1, D);
    }
  }

  lemma {:induction false} FlattenAllLength(items: seq<Nested>, d: nat, D: nat)
    requires forall k :: 0 <= k < |items| ==> Shaped(items[k], d, D)
    ensures |FlattenAll(items)| == |items| * Pow(D + 1, d)
    decreases items, 0
  {
    if items != [] {
      FlattenLength(items[0], d, D);
      FlattenAllLength(items[1..], d, D);
    }
  }

  /** Entry `k` of a level occupies the k-th block of L owners in its flattening. */
  lemma {:induction false} FlattenAllAt(items: seq<Nested>, d: nat, D: nat, k: nat, r: nat)
    requires forall j :: 0 <= j < |items| ==> Shaped(items[j], d, D)
    requires k < |items| && r < Pow(D + 1, d)
    ensures k * Pow(D + 1, d) + r < |FlattenAll(items)|
    ensures |Flatten(items[k])| == Pow(D + 1, d)
    ensures FlattenAll(items)[k * Pow(D + 1, d) + r] == Flatten(items[k])[r]
    decreases items
  {
    var L := Pow(D + 1, d);
    FlattenAllLength(items, d, D);
    MulLe(k + 1, |items|, L);
    FlattenLength(items[0], d, D);
    FlattenLength(items[k], d, D);
    if k > 0 {
      FlattenAllAt(items[1..], d, D, k - 1, r);
      assert (k - 1) * L + r + L == k * L + r;
    }
  }

  /** Descending the nested levels reaches the cell the flat offset names. */
  lemma {:induction false} LookupIsOffset(t: Nested, idx: seq<int>, D: nat)
    requires |idx| >= 1 && Shaped(t, |idx|, D) && InRange(idx, D)
    ensures |Flatten(t)| == Pow(D + 1, |idx|)
    ensures Lookup(t, idx) == Some(Cell(Flatten(t)[Offset(idx, D)]))
    decreases |idx|
  {
    FlattenLength(t, |idx|, D);
    var sub := t.items[idx[0]];
    var L := Pow(D + 1, |idx| - 1);
    assert InRange(idx[1..], D);
    var rest := Offset(idx[1..], D);
    FlattenAllAt(t.items, |idx| - 1, D, idx[0], rest);
    if |idx| == 1 {
      assert rest == 0;
    } else {
      LookupIsOffset(sub, idx[1..], D);
    }
  }

  /** A component beyond D makes the descent raise `IndexError`. */
  lemma {:induction false} LookupOutOfRange(t: Nested, idx: seq<int>, D: nat, k: nat)
    requires Shaped(t, |idx|, D)
    requires forall j :: 0 <= j < |idx| ==> 0 <= idx[j]
    requires k < |idx| && idx[k] > D
    ensures Lookup(t, idx) == None
    decreases |idx|
  {
    if k > 0 && idx[0] <= D {
      LookupOutOfRange(t.items[idx[0]], idx[1..], D, k - 1);
    }
  }

  /** `n` unclaimed cells. */
  function Blank(n: nat): seq<char> {
    seq(n, _ => Unclaimed)
  }

  lemma {:induction false} FlattenAllCopies(items: seq<Nested>, x: Nested, L: nat)
    requires forall k :: 0 <= k < |items| ==> items[k] == x
    requires Flatten(x) == Blank(L)
    ensures FlattenAll(items) == Blank(|items| * L)
    decreases items
  {
    if items != [] {
      FlattenAllCopies(items[1..], x, L);
      assert Blank(L) + Blank((|items| - 1) * L) == Blank(|items| * L);
    }
  }

  /** A freshly built board is `dims` levels of D+1 entries whose flattening is
      (D+1)^dims unclaimed cells. */
  lemma {:induction false} BoardCreatorShape(dims: nat, D: nat)
    requires dims >= 1
    ensures Shaped(BoardCreator(dims, D), dims, D)
    ensures Flatten(BoardCreator(dims, D)) == Blank(Pow(D + 1, dims))
  {
    var t := BoardCreator(dims, D);
    var x := if dims == 1 then Cell(Unclaimed) else BoardCreator(dims - 1, D);
    if dims > 1 {
      BoardCreatorShape(dims - 1, D);
    } else {
      assert Flatten(x) == Blank(1);
    }
    assert forall k :: 0 <= k < |t.items| ==> t.items[k] == x;
    FlattenAllCopies(t.items, x, Pow(D + 1, dims - 1));
  }

  /** How many cells have an owner. */
  function Claimed(cells: seq<char>): (n: nat)
    ensures n <= |cells|
  {
    if cells == [] then 0 else (if cells[0] != Unclaimed then 1 else 0) + Claimed(cells[1..])
  }

  /** Claiming an unclaimed cell adds exactly one to the count. */
  lemma {:induction false} ClaimedAfterClaim(cells: seq<char>, k: nat, tok: char)
    requires k < |cells| && cells[k] == Unclaimed && tok != Unclaimed
    ensures Claimed(cells[k := tok]) == Claimed(cells) + 1
  {
    if k > 0 {
      assert cells[k := tok][1..] == cells[1..][k - 1 := tok];
      ClaimedAfterClaim(cells[1..], k - 1, tok);
    } else {
      assert cells[k := tok][1..] == cells[1..];
    }
  }

  /** Every cell is claimed exactly when the count reaches the number of cells,
      and no cell is claimed exactly when it is zero. */
  lemma {:induction false} ClaimedBounds(cells: seq<char>)
    ensures Claimed(cells) == |cells| <==> forall k :: 0 <= k < |cells| ==> cells[k] != Unclaimed
    ensures Claimed(cells) == 0 <==> forall k :: 0 <= k < |cells| ==> cells[k] == Unclaimed
  {
    if cells != [] {
      ClaimedBounds(cells[1..]);
      assert forall k :: 1 <= k < |cells| ==> cells[k] == cells[1..][k - 1];
    }
  }
}
