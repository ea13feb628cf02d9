/** Cells, boards, piece counts and the colour swap ("inversion") used by the search.
    In the original program a board is a list of 24 one-character strings:
    'x' for an empty point, '1' and '2' for the two players. */
module Boards {

  /** One point of the board: 'x', '1' or '2'. */
  datatype Cell = Empty | P1 | P2

  /** A player is the mark of a non-empty point. */
  type Player = c: Cell | c != Empty witness P1

  /** The 24 intersections of the board, numbered as in the original program. */
  type Pos = p: int | 0 <= p < 24

  /** A board: one cell per intersection. */
  type Board = b: seq<Cell> | |b| == 24 witness seq(24, _ => Empty)

  /** The other player (`'2' if joueur1 == '1' else '1'`). */
  function Opponent(j: Player): (o: Player)
    ensures o != j
  {
    if j == P1 then P2 else P1
  }

  /** Number of cells of `s` that hold `c` (`plateau.count(joueur)`). */
  function Count(s: seq<Cell>, c: Cell): (n: nat)
    ensures n <= |s|
  {
    if s == [] then 0 else Count(s[..|s| - 1], c) + (if s[|s| - 1] == c then 1 else 0)
  }

  /** Every cell is counted exactly once among the three kinds. */
  lemma {:induction false} CountPartition(s: seq<Cell>)
    ensures Count(s, Empty) + Count(s, P1) + Count(s, P2) == |s|
  {
    if s != [] {
      CountPartition(s[..|s| - 1]);
    }
  }

  /** Overwriting one cell changes the counts by at most one, exactly as the write says. */
  lemma {:induction false} CountUpdate(s: seq<Cell>, i: int, v: Cell, c: Cell)
    requires 0 <= i < |s|
    ensures Count(s[i := v], c) == Count(s, c) - (if s[i] == c then 1 else 0) + (if v == c then 1 else 0)
  {
    var n := |s|;
    if i == n - 1 {
      assert s[i := v][..n - 1] == s[..n - 1];
    } else {
      assert s[i := v][..n - 1] == s[..n - 1][i := v];
      CountUpdate(s[..n - 1], i, v, c);
    }
  }

  /** A count is positive exactly when some cell holds the value. */
  lemma {:induction false} CountPositive(s: seq<Cell>, c: Cell)
    ensures Count(s, c) > 0 <==> exists i :: 0 <= i < |s| && s[i] == c
  {
    if s != [] {
      var n := |s|;
      CountPositive(s[..n - 1], c);
      if Count(s[..n - 1], c) > 0 {
        var i :| 0 <= i < n - 1 && s[..n - 1][i] == c;
        assert s[i] == c;
      }
      if exists i :: 0 <= i < n && s[i] == c {
        var i :| 0 <= i < n && s[i] == c;
        if i < n - 1 {
          assert s[..n - 1][i] == c;
        }
      }
    }
  }

  /** The colour swap of a single cell. */
  function Swap(c: Cell): (r: Cell)
    ensures (c == Empty) == (r == Empty)
  {
    match c
    case P1 => P2
    case P2 => P1
    case Empty => Empty
  }

  /** The swap of a player mark is that player's opponent. */
  lemma SwapPlayer(j: Player)
    ensures Swap(j) == Opponent(j)
  {
  }

  /** `plateauInverse`: the board with the two players' pieces exchanged. */
  function Invert(b: seq<Cell>): (r: seq<Cell>)
    ensures |r| == |b|
  {
    seq(|b|, i requires 0 <= i < |b| => Swap(b[i]))
  }

  /** `genereListePlateauInverse`: inversion applied to every board of a list. */
  function InvertAll(l: seq<Board>): (r: seq<Board>)
    ensures |r| == |l|
  {
    seq(|l|, k requires 0 <= k < |l| => Invert(l[k]))
  }

  /** Inversion is an involution. */
  lemma InvertInvolution(b: seq<Cell>)
    ensures Invert(Invert(b)) == b
  {
  }

  /** Inversion keeps the empty points and exchanges the two players' piece counts. */
  lemma {:induction false} CountInvert(s: seq<Cell>, c: Cell)
    ensures Count(Invert(s), Swap(c)) == Count(s, c)
  {
    if s != [] {
      var n := |s|;
      assert Invert(s)[..n - 1] == Invert(s[..n - 1]);
      CountInvert(s[..n - 1], c);
    }
  }

  /** `plateauInverse` keeps the number of empty points and exchanges the piece counts of the
      two players. */
  lemma InvertCounts(b: seq<Cell>)
    ensures Count(Invert(b), Empty) == Count(b, Empty)
    ensures Count(Invert(b), P1) == Count(b, P2)
    ensures Count(Invert(b), P2) == Count(b, P1)
  {
    CountInvert(b, Empty);
    CountInvert(b, P1);
    CountInvert(b, P2);
  }

  /** Writing a cell and then inverting is inverting and then writing the swapped cell. */
  lemma InvertUpdate(b: seq<Cell>, i: int, v: Cell)
    requires 0 <= i < |b|
    ensures Invert(b[i := v]) == Invert(b)[i := Swap(v)]
  {
  }

  /** Inversion of lists distributes over concatenation. */
  lemma InvertAllAppend(x: seq<Board>, y: seq<Board>)
    ensures InvertAll(x + y) == InvertAll(x) + InvertAll(y)
  {
  }

  /** Inverting a list twice gives the list back. */
  lemma InvertAllInvolution(l: seq<Board>)
    ensures InvertAll(InvertAll(l)) == l
  {
    forall k | 0 <= k < |l| ensures InvertAll(InvertAll(l))[k] == l[k] {
      InvertInvolution(l[k]);
    }
  }

  /** `plateauInverse` as the loop of the original program. */
  method InvertBoard(b: Board) returns (r: Board)
    ensures r == Invert(b)
  {
    var acc: seq<Cell> := [];
    for i := 0 to |b|
      invariant acc == Invert(b[..i])
    {
      var c := if b[i] == P1 then P2 else if b[i] == P2 then P1 else Empty;
      acc := acc + [c];
    }
    assert b[..|b|] == b;
    r := acc;
  }

  /** `genereListePlateauInverse` as the loop of the original program. */
  method InvertList(l: seq<Board>) returns (r: seq<Board>)
    ensures r == InvertAll(l)
  {
    r := [];
    for k := 0 to |l|
      invariant r == InvertAll(l[..k])
    {
      var inv := InvertBoard(l[k]);
      r := r + [inv];
    }
    assert l[..|l|] == l;
  }
}
