/** The three static evaluators of `src/ia/heuristiques.py`. Each is a weighted sum of counts
    taken from `src/ia/utils.py`, with the two infinite scores used as win and loss sentinels.
    '1' is the maximising player throughout. */
module Heuristics {
  import opened Boards
  import opened Topology
  import opened Mills
  import opened Moves
  import opened Scores

  function BoolToInt(c: bool): int
  {
    if c then 1 else 0
  }

  // ---------------------------------------------------------------- counts used by the evaluators

  /** Every neighbour of `p` is occupied: `all(plateau[adj] != 'x' for adj in positionsAdjacentes(p))`. */
  predicate Blocked(b: Board, p: Pos)
  {
    forall t :: 0 <= t < |Adj(p)| ==> b[Adj(p)[t]] != Empty
  }

  /** Pieces of `j` among the first `k` points with no empty neighbour. */
  function BlockedUpTo(b: Board, j: Player, k: nat): nat
    requires k <= 24
  {
    if k == 0 then 0 else BlockedUpTo(b, j, k - 1) + BoolToInt(b[k - 1] == j && Blocked(b, k - 1))
  }

  /** Number of pieces of `j` whose every neighbour is occupied. */
  function BlockedPieces(b: Board, j: Player): nat
  {
    BlockedUpTo(b, j, |b|)
  }

  /** Pieces of `j` among the first `k` points that are part of a closed mill. */
  function InMillUpTo(b: Board, j: Player, k: nat): nat
    requires k <= 24
  {
    if k == 0 then 0 else InMillUpTo(b, j, k - 1) + BoolToInt(b[k - 1] == j && ClosedMill(k - 1, b))
  }

  /** Number of pieces of `j` that are part of a closed mill. */
  function PiecesInMills(b: Board, j: Player): nat
  {
    InMillUpTo(b, j, |b|)
  }

  /** The double-mill count of `heuristiqueExperte` among the first `k` points: pieces of `j`
      with `moulinCree(i, plateau) and prochainMoulin(i, plateau, j)`. */
  function DoubleMillsUpTo(b: Board, j: Player, k: nat): nat
    requires k <= 24
  {
    if k == 0 then 0 else DoubleMillsUpTo(b, j, k - 1) + BoolToInt(b[k - 1] == j && ClosedMill(k - 1, b) && NextMill(k - 1, b, j))
  }

  /** The double-mill count of `heuristiqueExperte`. */
  function DoubleMills(b: Board, j: Player): nat
  {
    DoubleMillsUpTo(b, j, |b|)
  }

  /** `any(moulinCree(i, plateau) for i in range(len(plateau)) if plateau[i] == j)`. */
  predicate AnyClosedMill(b: Board, j: Player)
  {
    exists i: Pos :: b[i] == j && ClosedMill(i, b)
  }

  lemma {:induction false} BlockedUpToBound(b: Board, j: Player, k: nat)
    requires k <= 24
    ensures BlockedUpTo(b, j, k) <= Count(b[..k], j)
    ensures BlockedUpTo(b, j, k) == Count(b[..k], j) <==> forall i :: 0 <= i < k && b[i] == j ==> Blocked(b, i)
  {
    if k > 0 {
      assert b[..k][..k - 1] == b[..k - 1];
      BlockedUpToBound(b, j, k - 1);
    }
  }

  /** The blocked pieces of `j` are some of its pieces, all of them exactly when every piece of `j`
      is surrounded. */
  lemma BlockedPiecesBound(b: Board, j: Player)
    ensures BlockedPieces(b, j) <= Count(b, j)
    ensures BlockedPieces(b, j) == Count(b, j) <==> forall i: Pos :: b[i] == j ==> Blocked(b, i)
  {
    BlockedUpToBound(b, j, 24);
    assert b[..24] == b;
  }

  /** A player whose pieces are all blocked has no slide at all. */
  lemma AllBlockedNoSlides(b: Board, j: Player)
    requires BlockedPieces(b, j) == Count(b, j)
    ensures Slides(b, j) == []
  {
    BlockedPiecesBound(b, j);
    if Slides(b, j) != [] {
      SlideMembers(b, j, Slides(b, j)[0]);
      assert false;
    }
  }

  lemma {:induction false} DoubleMillsUpToIsInMill(b: Board, j: Player, k: nat)
    requires k <= 24
    ensures DoubleMillsUpTo(b, j, k) == InMillUpTo(b, j, k)
  {
    if k > 0 {
      DoubleMillsUpToIsInMill(b, j, k - 1);
    }
  }

  /** The extra `prochainMoulin` test of the double-mill count is implied by `moulinCree` on a
      piece of `j`: the count is just the number of pieces of `j` standing in a closed mill. */
  lemma DoubleMillsAreInMill(b: Board, j: Player)
    ensures DoubleMills(b, j) == PiecesInMills(b, j)
  {
    DoubleMillsUpToIsInMill(b, j, 24);
  }

  lemma {:induction false} InMillUpToBound(b: Board, j: Player, k: nat)
    requires k <= 24
    ensures InMillUpTo(b, j, k) <= Count(b[..k], j)
  {
    if k > 0 {
      assert b[..k][..k - 1] == b[..k - 1];
      InMillUpToBound(b, j, k - 1);
    }
  }

  lemma {:induction false} InMillUpToPositive(b: Board, j: Player, k: nat)
    requires k <= 24
    ensures InMillUpTo(b, j, k) > 0 <==> exists i :: 0 <= i < k && b[i] == j && ClosedMill(i, b)
  {
    if k > 0 {
      InMillUpToPositive(b, j, k - 1);
      if b[k - 1] == j && ClosedMill(k - 1, b) {
        assert InMillUpTo(b, j, k) > 0;
      } else if exists i :: 0 <= i < k && b[i] == j && ClosedMill(i, b) {
        var i :| 0 <= i < k && b[i] == j && ClosedMill(i, b);
        assert i < k - 1;
      }
    }
  }

  /** `any(...)` over the pieces of `j` holds exactly when at least one of them is in a mill. */
  lemma AnyClosedMillCount(b: Board, j: Player)
    ensures PiecesInMills(b, j) <= Count(b, j)
    ensures AnyClosedMill(b, j) <==> PiecesInMills(b, j) > 0
  {
    InMillUpToBound(b, j, 24);
    InMillUpToPositive(b, j, 24);
    assert b[..24] == b;
  }

  // ---------------------------------------------------------------- heuristiqueNaive

  /** `heuristiqueNaive(plateau, phase1)`. Outside the placing phase it reports a win for '1'
      when '2' is down to two pieces or when '1' itself cannot move (the mobility is that of '1',
      the default player of `mouvementsPossiblesEtape2ou3`), and only then a loss when '1' is
      down to two pieces. */
  function Naive(b: Board, phase1: bool): (r: Score)
    ensures phase1 ==> r.Fin?
    ensures r == PosInf <==> !phase1 && (Count(b, P2) <= 2 || |Moves2or3(b, P1)| == 0)
    ensures r == NegInf <==> !phase1 && Count(b, P2) > 2 && |Moves2or3(b, P1)| > 0 && Count(b, P1) <= 2
  {
    var mills1 := PossibleMills(b, P1);
    var forming2 := FormingPieces(b, P2);
    if !phase1 && (Count(b, P2) <= 2 || |Moves2or3(b, P1)| == 0) then PosInf
    else if !phase1 && Count(b, P1) <= 2 then NegInf
    else if Count(b, P1) < 4 then Fin(1 * mills1 + 2 * forming2)
    else Fin(2 * mills1 + 1 * forming2)
  }

  /** A finite naive score is never negative, and is bounded by twice the empty points (the
      potential mills of '1') plus eight per piece of '2' (its pieces in forming position). */
  lemma NaiveBounds(b: Board, phase1: bool)
    ensures Naive(b, phase1).Fin? ==> 0 <= Naive(b, phase1).n <= 2 * Count(b, Empty) + 8 * Count(b, P2)
  {
    PossibleMillsBounds(b, P1);
    FormingPiecesBound(b, P2);
  }

  // ---------------------------------------------------------------- heuristiqueAvancee

  /** `heuristiqueAvancee(plateau, phase1)` with its weights 10 (pieces), 50 (potential mills),
      30 (pieces in forming position), 5 (mobility, outside the placing phase only) and 30
      (surrounded pieces of '2'). */
  function Advanced(b: Board, phase1: bool): (r: Score)
    ensures phase1 ==> r.Fin?
    ensures !phase1 && Count(b, P1) < 3 ==> r == NegInf
    ensures !phase1 && Count(b, P1) >= 3 && Count(b, P2) < 3 ==> r == PosInf
    ensures !phase1 && Count(b, P1) >= 3 && Count(b, P2) >= 3 ==>
      (r == PosInf <==> |Moves2or3(b, P2)| == 0) &&
      (r == NegInf <==> |Moves2or3(b, P2)| > 0 && |Moves2or3(b, P1)| == 0)
  {
    var pieces1 := Count(b, P1);
    var pieces2 := Count(b, P2);
    if !phase1 && pieces1 < 3 then NegInf
    else if !phase1 && pieces2 < 3 then PosInf
    else
      var evaluation := 10 * (pieces1 - pieces2)
        + 50 * (PossibleMills(b, P1) - PossibleMills(b, P2))
        + 30 * (FormingPieces(b, P1) - FormingPieces(b, P2));
      if !phase1 then
        var moves1 := |Moves2or3(b, P1)|;
        var moves2 := |Moves2or3(b, P2)|;
        if moves2 == 0 then PosInf
        else if moves1 == 0 then NegInf
        else Fin(evaluation + 5 * (moves1 - moves2) + 30 * BlockedPieces(b, P2))
      else Fin(evaluation + 30 * BlockedPieces(b, P2))
  }

  /** Between the two phases, a finite advanced score differs only by the mobility term. */
  lemma AdvancedMobilityTerm(b: Board)
    requires Advanced(b, false).Fin?
    ensures Advanced(b, false).n == Advanced(b, true).n + 5 * (|Moves2or3(b, P1)| - |Moves2or3(b, P2)|)
  {
  }

  /** The surrounded-pieces term rewards '2' being stuck: it adds between 0 and 30 per piece of '2'. */
  lemma AdvancedBlockedTerm(b: Board)
    ensures 0 <= Advanced(b, true).n
      - (10 * (Count(b, P1) - Count(b, P2)) + 50 * (PossibleMills(b, P1) - PossibleMills(b, P2))
         + 30 * (FormingPieces(b, P1) - FormingPieces(b, P2)))
      <= 30 * Count(b, P2)
  {
    BlockedPiecesBound(b, P2);
  }

  // ---------------------------------------------------------------- heuristiqueExperte

  /** The eight weights of `heuristiqueExperte`, chosen by the phase flag. */
  datatype Weights = Weights(closed: int, mills: int, blocked: int, pieces: int,
                             config2: int, config3: int, double: int, win: int)

  function ExpertWeights(phase1: bool): (w: Weights)
    ensures phase1 ==> w.double == 0 && w.win == 0
    ensures w.closed > 0 && w.mills > 0 && w.blocked > 0 && w.pieces > 0 && w.config2 > 0 && w.config3 > 0
  {
    if phase1 then Weights(18, 26, 1, 9, 10, 7, 0, 0)
    else Weights(14, 43, 10, 11, 8, 1086, 8, 1190)
  }

  /** The winning-configuration flag exactly as written: '2' has fewer than three pieces, or the
      number of blocked pieces of '1' equals the number of pieces of '2'. */
  predicate ExpertWinFlag(b: Board)
  {
    Count(b, P2) < 3 || BlockedPieces(b, P1) == Count(b, P2)
  }

  /** The losing-configuration flag exactly as written: '1' has fewer than three pieces, or the
      number of blocked pieces of '2' equals the number of pieces of '1'. */
  predicate ExpertLossFlag(b: Board)
  {
    Count(b, P1) < 3 || BlockedPieces(b, P2) == Count(b, P1)
  }

  /** `heuristiqueExperte(plateau, phase1)`. The three-piece configurations are the
      potential-mill count again (the same generator expression as `nombrePossibleMoulins`), and
      the blocked-piece term is the blocked pieces of '1' minus those of '2', as written. */
  function Expert(b: Board, phase1: bool): (r: Score)
    ensures r.Fin?
  {
    var w := ExpertWeights(phase1);
    var evaluation :=
      w.closed * (BoolToInt(AnyClosedMill(b, P1)) - BoolToInt(AnyClosedMill(b, P2)))
      + w.mills * (PossibleMills(b, P1) - PossibleMills(b, P2))
      + w.blocked * (BlockedPieces(b, P1) - BlockedPieces(b, P2))
      + w.pieces * (Count(b, P1) - Count(b, P2))
      + w.config2 * (FormingPieces(b, P1) - FormingPieces(b, P2))
      + w.config3 * (PossibleMills(b, P1) - PossibleMills(b, P2))
      + w.double * (DoubleMills(b, P1) - DoubleMills(b, P2))
      + w.win * (BoolToInt(ExpertWinFlag(b)) - BoolToInt(ExpertLossFlag(b)));
    Fin(evaluation)
  }

  /** The expert score with its redundant counts merged: potential mills weigh 26 + 7 during
      placement and 43 + 1086 afterwards; the double-mill term counts the pieces standing in a
      closed mill; during placement neither the double mills nor the win flags contribute. */
  lemma ExpertMerged(b: Board, phase1: bool)
    ensures var millsDiff := PossibleMills(b, P1) - PossibleMills(b, P2);
      var closedDiff := BoolToInt(PiecesInMills(b, P1) > 0) - BoolToInt(PiecesInMills(b, P2) > 0);
      var blockedDiff := BlockedPieces(b, P1) - BlockedPieces(b, P2);
      var piecesDiff := Count(b, P1) - Count(b, P2);
      var formingDiff := FormingPieces(b, P1) - FormingPieces(b, P2);
      Expert(b, phase1).n ==
        if phase1 then
          18 * closedDiff + 33 * millsDiff + 1 * blockedDiff + 9 * piecesDiff + 10 * formingDiff
        else
          14 * closedDiff + 1129 * millsDiff + 10 * blockedDiff + 11 * piecesDiff + 8 * formingDiff
          + 8 * (PiecesInMills(b, P1) - PiecesInMills(b, P2))
          + 1190 * (BoolToInt(ExpertWinFlag(b)) - BoolToInt(ExpertLossFlag(b)))
  {
    DoubleMillsAreInMill(b, P1);
    DoubleMillsAreInMill(b, P2);
    AnyClosedMillCount(b, P1);
    AnyClosedMillCount(b, P2);
    if phase1 {
      assert ExpertWeights(phase1) == Weights(18, 26, 1, 9, 10, 7, 0, 0);
    } else {
      assert ExpertWeights(phase1) == Weights(14, 43, 10, 11, 8, 1086, 8, 1190);
    }
  }
}
