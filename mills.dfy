/** Mill-related counts of `src/ia/utils.py`: potential mills (`nombrePossibleMoulins`), the
    "piece in formation" test (`moulinEnFormation`) and the asymmetric count of pieces in
    mill-forming position (`nombrePiecesMoulinEnFormation`). */
module Mills {
  import opened Boards
  import opened Topology

  /** The mill tests do not depend on colours, only on who holds what: after swapping the two
      players, the opponent completes exactly the lines the player completed before. */
  lemma NextMillInvert(p: Pos, b: Board, j: Player)
    ensures NextMill(p, Invert(b), Opponent(j)) == NextMill(p, b, j)
  {
    var (f, g) := MillTable[p];
    assert Invert(b)[f.0] == Swap(b[f.0]) && Invert(b)[f.1] == Swap(b[f.1]);
    assert Invert(b)[g.0] == Swap(b[g.0]) && Invert(b)[g.1] == Swap(b[g.1]);
  }

  /** A piece is in a closed mill after inversion exactly when it was before. */
  lemma ClosedMillInvert(p: Pos, b: Board)
    ensures ClosedMill(p, Invert(b)) == ClosedMill(p, b)
  {
    if b[p] != Empty {
      NextMillInvert(p, b, b[p]);
    }
  }

  // ---------------------------------------------------------------- potential mills

  /** Number of empty points among the first `k` where `j` would close a mill. */
  function PossibleMillsUpTo(b: Board, j: Player, k: nat): nat
    requires k <= 24
  {
    if k == 0 then 0
    else PossibleMillsUpTo(b, j, k - 1) + (if b[k - 1] == Empty && NextMill(k - 1, b, j) then 1 else 0)
  }

  /** `nombrePossibleMoulins(plateau, joueur)`. */
  function PossibleMills(b: Board, j: Player): nat
  {
    PossibleMillsUpTo(b, j, |b|)
  }

  /** The count of potential mills is bounded by the empty points of the prefix. */
  lemma {:induction false} PossibleMillsUpToBound(b: Board, j: Player, k: nat)
    requires k <= 24
    ensures PossibleMillsUpTo(b, j, k) <= Count(b[..k], Empty)
  {
    if k > 0 {
      assert b[..k][..k - 1] == b[..k - 1];
      PossibleMillsUpToBound(b, j, k - 1);
    }
  }

  /** The count of potential mills is positive exactly when some empty point of the prefix would
      close a mill for `j`. */
  lemma {:induction false} PossibleMillsUpToPositive(b: Board, j: Player, k: nat)
    requires k <= 24
    ensures PossibleMillsUpTo(b, j, k) > 0 <==> exists i :: 0 <= i < k && b[i] == Empty && NextMill(i, b, j)
  {
    if k > 0 {
      PossibleMillsUpToPositive(b, j, k - 1);
      if b[k - 1] == Empty && NextMill(k - 1, b, j) {
        assert PossibleMillsUpTo(b, j, k) > 0;
      } else if exists i :: 0 <= i < k && b[i] == Empty && NextMill(i, b, j) {
        var i :| 0 <= i < k && b[i] == Empty && NextMill(i, b, j);
        assert i < k - 1;
      }
    }
  }

  /** `nombrePossibleMoulins` never exceeds the number of empty points and is zero exactly when no
      empty point would close a mill for `j`. */
  lemma PossibleMillsBounds(b: Board, j: Player)
    ensures PossibleMills(b, j) <= Count(b, Empty)
    ensures PossibleMills(b, j) > 0 <==> exists i: Pos :: b[i] == Empty && NextMill(i, b, j)
  {
    PossibleMillsUpToBound(b, j, 24);
    PossibleMillsUpToPositive(b, j, 24);
    assert b[..24] == b;
  }

  /** Swapping colours swaps whose potential mills are counted. */
  lemma {:induction false} PossibleMillsUpToInvert(b: Board, j: Player, k: nat)
    requires k <= 24
    ensures PossibleMillsUpTo(Invert(b), Opponent(j), k) == PossibleMillsUpTo(b, j, k)
  {
    if k > 0 {
      PossibleMillsUpToInvert(b, j, k - 1);
      NextMillInvert(k - 1, b, j);
    }
  }

  /** `nombrePossibleMoulins` as the loop of the original program. */
  method CountPossibleMills(b: Board, j: Player) returns (n: nat)
    ensures n == PossibleMills(b, j)
  {
    n := 0;
    for i := 0 to 24
      invariant n == PossibleMillsUpTo(b, j, i)
    {
      if b[i] == Empty {
        if NextMill(i, b, j) {
          n := n + 1;
        }
      }
    }
  }

  // ---------------------------------------------------------------- moulinEnFormation

  /** `moulinEnFormation(p, b, j)`: some neighbour of `p` holds `j` while `j` cannot close a
      mill on `p`. */
  predicate Forming(p: Pos, b: Board, j: Player)
  {
    (exists t :: 0 <= t < |Adj(p)| && b[Adj(p)[t]] == j) && !NextMill(p, b, j)
  }

  /** `moulinEnFormation` as the loop with early return of the original program. */
  method InFormation(p: Pos, b: Board, j: Player) returns (r: bool)
    ensures r <==> (exists q :: q in Adj(p) && b[q] == j) && !NextMill(p, b, j)
    ensures r == Forming(p, b, j)
  {
    var neighbours := Adj(p);
    for t := 0 to |neighbours|
      invariant forall u :: 0 <= u < t ==> !(b[neighbours[u]] == j && !NextMill(p, b, j))
    {
      if b[neighbours[t]] == j && !NextMill(p, b, j) {
        return true;
      }
    }
    return false;
  }

  // ---------------------------------------------------------------- nombrePiecesMoulinEnFormation

  /** One step of `nombrePiecesMoulinEnFormation`: the piece of `j` on `i` and its neighbour `q`.
      For '1' the step writes '2' on `i` and asks whether that closes a mill; for '2' it asks
      whether the neighbour is a '1' piece in formation. */
  predicate FormingHit(b: Board, j: Player, i: Pos, q: Pos)
  {
    if j == P1 then b[q] == P2 && ClosedMill(i, b[i := P2])
    else b[q] == P1 && Forming(q, b, P1)
  }

  /** Hits among the first `t` neighbours of `i`. */
  function FormingAdjUpTo(b: Board, j: Player, i: Pos, t: nat): nat
    requires t <= |Adj(i)|
  {
    if t == 0 then 0
    else FormingAdjUpTo(b, j, i, t - 1) + (if FormingHit(b, j, i, Adj(i)[t - 1]) then 1 else 0)
  }

  /** The contribution of point `i`: its hits if it holds `j`, nothing otherwise. */
  function FormingAt(b: Board, j: Player, i: Pos): nat
  {
    if b[i] == j then FormingAdjUpTo(b, j, i, |Adj(i)|) else 0
  }

  /** Contributions of the first `k` points. */
  function FormingPiecesUpTo(b: Board, j: Player, k: nat): nat
    requires k <= 24
  {
    if k == 0 then 0 else FormingPiecesUpTo(b, j, k - 1) + FormingAt(b, j, k - 1)
  }

  /** `nombrePiecesMoulinEnFormation(plateau, joueur)`. */
  function FormingPieces(b: Board, j: Player): nat
  {
    FormingPiecesUpTo(b, j, |b|)
  }

  /** For '1' the temporary write of '2' on the piece's own point amounts to asking whether that
      piece blocks a mill of '2': the write is invisible to `prochainMoulin` on that point. */
  lemma FormingHitForOne(b: Board, i: Pos, q: Pos)
    requires b[i] == P1
    ensures FormingHit(b, P1, i, q) <==> b[q] == P2 && NextMill(i, b, P2)
  {
    NextMillIgnoresOwnCell(i, b, P2, P2);
  }

  /** A point contributes at most one hit per neighbour, so at most four. */
  lemma {:induction false} FormingAdjBound(b: Board, j: Player, i: Pos, t: nat)
    requires t <= |Adj(i)|
    ensures FormingAdjUpTo(b, j, i, t) <= t
  {
    if t > 0 {
      FormingAdjBound(b, j, i, t - 1);
    }
  }

  /** The count is at most four per piece of `j` (a piece is counted once per qualifying neighbour,
      not once per piece). */
  lemma {:induction false} FormingPiecesUpToBound(b: Board, j: Player, k: nat)
    requires k <= 24
    ensures FormingPiecesUpTo(b, j, k) <= 4 * Count(b[..k], j)
  {
    if k > 0 {
      assert b[..k][..k - 1] == b[..k - 1];
      FormingPiecesUpToBound(b, j, k - 1);
      AdjacencyShape();
      FormingAdjBound(b, j, k - 1, |Adj(k - 1)|);
    }
  }

  /** `nombrePiecesMoulinEnFormation` counts at most four per piece, and nothing for a player
      without pieces. */
  lemma FormingPiecesBound(b: Board, j: Player)
    ensures FormingPieces(b, j) <= 4 * Count(b, j)
  {
    FormingPiecesUpToBound(b, j, 24);
    assert b[..24] == b;
  }

  /** `nombrePiecesMoulinEnFormation` as the nested loops of the original program, on the caller's
      board, including the temporary write of '2' on the examined point and its restoration:
      the board is returned exactly as it was given. */
  method CountFormingPieces(a: array<Cell>, j: Player) returns (n: nat)
    requires a.Length == 24
    modifies a
    ensures a[..] == old(a[..])
    ensures n == FormingPieces(old(a[..]), j)
  {
    ghost var b: Board := a[..];
    n := 0;
    for i := 0 to 24
      invariant a[..] == b
      invariant n == FormingPiecesUpTo(b, j, i)
    {
      if a[i] == j {
        var hits := CountFormingAt(a, j, i);
        n := n + hits;
      }
    }
  }

  /** The inner loop of `nombrePiecesMoulinEnFormation` over the neighbours of the piece of `j`
      on `i`, with the temporary write for '1'. */
  method CountFormingAt(a: array<Cell>, j: Player, i: Pos) returns (hits: nat)
    requires a.Length == 24 && a[i] == j
    modifies a
    ensures a[..] == old(a[..])
    ensures hits == FormingAdjUpTo(old(a[..]), j, i, |Adj(i)|)
  {
    ghost var b: Board := a[..];
    var neighbours := Adj(i);
    hits := 0;
    for t := 0 to |neighbours|
      invariant a[..] == b
      invariant hits == FormingAdjUpTo(b, j, i, t)
    {
      var pos := neighbours[t];
      var hit := false;
      if j == P1 {
        if a[pos] == P2 {
          a[i] := P2;
          assert a[..] == b[i := P2];
          hit := ClosedMill(i, a[..]);
          a[i] := j;
          assert a[..] == b;
        }
      } else {
        if a[pos] == P1 {
          hit := InFormation(pos, a[..], P1);
        }
      }
      assert hit == FormingHit(b, j, i, pos);
      if hit {
        hits := hits + 1;
      }
    }
  }
}
