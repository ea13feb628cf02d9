/** `src/ia/minimax.py`: depth-bounded minimax with alpha-beta pruning. '1' always maximises,
    '2' always minimises; the moves of '2' are generated by inverting the board, generating the
    moves of '1' and inverting every successor back. */
module Minimax {
  import opened Boards
  import opened Moves
  import opened Symmetry
  import opened Scores
  import opened Heuristics

  /** The evaluation function handed to `minimax`. */
  datatype Evaluator = UseNaive | UseAdvanced | UseExpert

  /** `heuristique(plateau, etape1)` for the chosen evaluator. */
  function Evaluate(h: Evaluator, b: Board, phase1: bool): (r: Score)
    ensures phase1 ==> r.Fin?
    ensures h == UseExpert ==> r.Fin?
  {
    match h
    case UseNaive => Naive(b, phase1)
    case UseAdvanced => Advanced(b, phase1)
    case UseExpert => Expert(b, phase1)
  }

  /** The record `minimax` returns: a score and the board chosen for it. */
  class Evaluer {
    var score: Score
    var board: Board

    /** `Evaluer()` followed by `evaluationFinale.plateau = plateau[:]`. */
    constructor (b: Board)
      ensures score == Fin(0) && board == b
    {
      score := Fin(0);
      board := b;
    }
  }

  /** The score and board of a search, as values. */
  datatype Outcome = Outcome(score: Score, board: Board)

  /** Where `minimax` stops: depth exhausted, or a side below three pieces outside the placing phase. */
  predicate Terminal(b: Board, depth: nat, phase1: bool)
  {
    depth == 0 || (!phase1 && (Count(b, P1) < 3 || Count(b, P2) < 3))
  }

  /** What `minimax(plateau, profondeur, maximisant, alpha, beta, etape1, heuristique)` computes. */
  function Search(b: Board, depth: nat, maximizing: bool, alpha: Score, beta: Score, phase1: bool, h: Evaluator): Outcome
    decreases depth, 1
  {
    if Terminal(b, depth, phase1) then Outcome(Evaluate(h, b, phase1), b)
    else if maximizing then MaxNode(b, depth - 1, alpha, beta, phase1, h)
    else MinNode(b, depth - 1, alpha, beta, phase1, h)
  }

  /** The maximising branch: the moves of '1', searched from the first with best score `-inf`;
      without any move, the score is the heuristic value of the board. */
  function MaxNode(b: Board, depth: nat, alpha: Score, beta: Score, phase1: bool, h: Evaluator): Outcome
    decreases depth + 1, 0
  {
    var moves := Gen(b, P1, phase1);
    var r := MaxLoop(moves, 0, depth, alpha, beta, phase1, h, NegInf, b);
    Outcome(if |moves| > 0 then r.score else Evaluate(h, b, phase1), r.board)
  }

  /** The minimising branch: the moves of '2' obtained through inversion, searched from the first
      with best score `+inf`. */
  function MinNode(b: Board, depth: nat, alpha: Score, beta: Score, phase1: bool, h: Evaluator): Outcome
    decreases depth + 1, 0
  {
    var moves := InvertAll(Gen(Invert(b), P1, phase1));
    var r := MinLoop(moves, 0, depth, alpha, beta, phase1, h, PosInf, b);
    Outcome(if |moves| > 0 then r.score else Evaluate(h, b, phase1), r.board)
  }

  /** The maximising `for` loop from the `i`-th successor on, with the current `alpha`, best
      score and chosen board: a child replaces the best only when strictly better, and the loop
      stops as soon as `beta <= alpha`. */
  function MaxLoop(moves: seq<Board>, i: nat, depth: nat, alpha: Score, beta: Score, phase1: bool, h: Evaluator,
                   best: Score, board: Board): Outcome
    requires i <= |moves|
    decreases depth, |moves| - i + 1
  {
    if i == |moves| then Outcome(best, board)
    else
      var v := Search(moves[i], depth, false, alpha, beta, phase1, h).score;
      var best' := if Lt(best, v) then v else best;
      var board' := if Lt(best, v) then moves[i] else board;
      var alpha' := Max(alpha, best');
      if Le(beta, alpha') then Outcome(best', board')
      else MaxLoop(moves, i + 1, depth, alpha', beta, phase1, h, best', board')
  }

  /** The minimising `for` loop, symmetric to `MaxLoop`. */
  function MinLoop(moves: seq<Board>, i: nat, depth: nat, alpha: Score, beta: Score, phase1: bool, h: Evaluator,
                   best: Score, board: Board): Outcome
    requires i <= |moves|
    decreases depth, |moves| - i + 1
  {
    if i == |moves| then Outcome(best, board)
    else
      var v := Search(moves[i], depth, true, alpha, beta, phase1, h).score;
      var best' := if Lt(v, best) then v else best;
      var board' := if Lt(v, best) then moves[i] else board;
      var beta' := Min(beta, best');
      if Le(beta', alpha) then Outcome(best', board')
      else MinLoop(moves, i + 1, depth, alpha, beta', phase1, h, best', board')
  }

  /** The scores the maximising loop obtains, in order, for the successors it examines from the
      `i`-th on: one per iteration, up to and including the one that triggers the cut-off. */
  function MaxExamined(moves: seq<Board>, i: nat, depth: nat, alpha: Score, beta: Score, phase1: bool, h: Evaluator,
                       best: Score): seq<Score>
    requires i <= |moves|
    decreases |moves| - i
  {
    if i == |moves| then []
    else
      var v := Search(moves[i], depth, false, alpha, beta, phase1, h).score;
      var best' := if Lt(best, v) then v else best;
      var alpha' := Max(alpha, best');
      if Le(beta, alpha') then [v]
      else [v] + MaxExamined(moves, i + 1, depth, alpha', beta, phase1, h, best')
  }

  /** The scores the minimising loop obtains, in order, for the successors it examines. */
  function MinExamined(moves: seq<Board>, i: nat, depth: nat, alpha: Score, beta: Score, phase1: bool, h: Evaluator,
                       best: Score): seq<Score>
    requires i <= |moves|
    decreases |moves| - i
  {
    if i == |moves| then []
    else
      var v := Search(moves[i], depth, true, alpha, beta, phase1, h).score;
      var best' := if Lt(v, best) then v else best;
      var beta' := Min(beta, best');
      if Le(beta', alpha) then [v]
      else [v] + MinExamined(moves, i + 1, depth, alpha, beta', phase1, h, best')
  }

  /** `vs[k]` is the first maximum of `vs`: every earlier score is strictly lower, no later one
      is higher. */
  predicate FirstMax(vs: seq<Score>, k: int)
  {
    && 0 <= k < |vs|
    && (forall m :: 0 <= m < k ==> Lt(vs[m], vs[k]))
    && (forall m :: k < m < |vs| ==> Le(vs[m], vs[k]))
  }

  /** `vs[k]` is the first minimum of `vs`. */
  predicate FirstMin(vs: seq<Score>, k: int)
  {
    && 0 <= k < |vs|
    && (forall m :: 0 <= m < k ==> Lt(vs[k], vs[m]))
    && (forall m :: k < m < |vs| ==> Le(vs[k], vs[m]))
  }

  /** The outcome `r` of a maximising loop entered at successor `i` with best score `best` and
      board `board`, which examined the scores `vs`: either no examined successor scores strictly
      better than `best` and the loop keeps both, or the outcome is the first examined successor
      with the highest score, together with that score, which is strictly better than `best`.
      Ties therefore keep the earlier successor. */
  predicate MaxChoice(moves: seq<Board>, i: nat, vs: seq<Score>, best: Score, board: Board, r: Outcome)
    requires i + |vs| <= |moves|
  {
    || (r == Outcome(best, board) && forall m :: 0 <= m < |vs| ==> Le(vs[m], best))
    || exists k :: 0 <= k < |vs| && FirstMax(vs, k) && Lt(best, vs[k]) && r == Outcome(vs[k], moves[i + k])
  }

  /** The outcome of a minimising loop: the first examined successor with the lowest score when
      that score is strictly below `best`, the starting board and score otherwise. */
  predicate MinChoice(moves: seq<Board>, i: nat, vs: seq<Score>, best: Score, board: Board, r: Outcome)
    requires i + |vs| <= |moves|
  {
    || (r == Outcome(best, board) && forall m :: 0 <= m < |vs| ==> Le(best, vs[m]))
    || exists k :: 0 <= k < |vs| && FirstMin(vs, k) && Lt(vs[k], best) && r == Outcome(vs[k], moves[i + k])
  }

  /** One more examined score `v` in front: if the rest of the loop chose well from the best
      score and board after `v`, the whole loop chose well from those before it. */
  lemma MaxChoiceCons(moves: seq<Board>, i: nat, v: Score, best: Score, board: Board, rest: seq<Score>, r: Outcome)
    requires i + 1 + |rest| <= |moves|
    requires MaxChoice(moves, i + 1, rest, if Lt(best, v) then v else best, if Lt(best, v) then moves[i] else board, r)
    ensures MaxChoice(moves, i, [v] + rest, best, board, r)
  {
    var vs := [v] + rest;
    var best' := if Lt(best, v) then v else best;
    assert Le(v, best') && Le(best, best') by {
      TotalOrder(v, best, v);
      TotalOrder(best, v, best);
    }
    assert forall m :: 0 < m < |vs| ==> vs[m] == rest[m - 1];
    if exists k :: 0 <= k < |rest| && FirstMax(rest, k) && Lt(best', rest[k]) && r == Outcome(rest[k], moves[i + 1 + k]) {
      var k :| 0 <= k < |rest| && FirstMax(rest, k) && Lt(best', rest[k]) && r == Outcome(rest[k], moves[i + 1 + k]);
      TotalOrder(rest[k], v, best');
      TotalOrder(rest[k], best, best');
      assert FirstMax(vs, k + 1);
    } else if Lt(best, v) {
      assert FirstMax(vs, 0);
    }
  }

  /** `MaxChoiceCons` for the minimising loop. */
  lemma MinChoiceCons(moves: seq<Board>, i: nat, v: Score, best: Score, board: Board, rest: seq<Score>, r: Outcome)
    requires i + 1 + |rest| <= |moves|
    requires MinChoice(moves, i + 1, rest, if Lt(v, best) then v else best, if Lt(v, best) then moves[i] else board, r)
    ensures MinChoice(moves, i, [v] + rest, best, board, r)
  {
    var vs := [v] + rest;
    var best' := if Lt(v, best) then v else best;
    assert Le(best', v) && Le(best', best) by {
      TotalOrder(v, best, v);
      TotalOrder(best, v, best);
    }
    assert forall m :: 0 < m < |vs| ==> vs[m] == rest[m - 1];
    if exists k :: 0 <= k < |rest| && FirstMin(rest, k) && Lt(rest[k], best') && r == Outcome(rest[k], moves[i + 1 + k]) {
      var k :| 0 <= k < |rest| && FirstMin(rest, k) && Lt(rest[k], best') && r == Outcome(rest[k], moves[i + 1 + k]);
      TotalOrder(best', v, rest[k]);
      TotalOrder(best', best, rest[k]);
      assert FirstMin(vs, k + 1);
    } else if Lt(v, best) {
      assert FirstMin(vs, 0);
    }
  }

  /** The maximising loop examines at least one and at most all remaining successors, and its
      outcome is their first maximum when that beats the starting score (`MaxChoice`). */
  lemma {:induction false} MaxLoopBoard(moves: seq<Board>, i: nat, depth: nat, alpha: Score, beta: Score, phase1: bool,
                                        h: Evaluator, best: Score, board: Board)
    requires i <= |moves|
    ensures |MaxExamined(moves, i, depth, alpha, beta, phase1, h, best)| <= |moves| - i
    ensures i < |moves| ==> |MaxExamined(moves, i, depth, alpha, beta, phase1, h, best)| > 0
    ensures MaxChoice(moves, i, MaxExamined(moves, i, depth, alpha, beta, phase1, h, best), best, board,
                      MaxLoop(moves, i, depth, alpha, beta, phase1, h, best, board))
    decreases |moves| - i
  {
    if i < |moves| {
      var v := Search(moves[i], depth, false, alpha, beta, phase1, h).score;
      var best' := if Lt(best, v) then v else best;
      var board' := if Lt(best, v) then moves[i] else board;
      var alpha' := Max(alpha, best');
      if Le(beta, alpha') {
        MaxChoiceCons(moves, i, v, best, board, [], Outcome(best', board'));
        assert [v] + [] == [v];
      } else {
        MaxLoopBoard(moves, i + 1, depth, alpha', beta, phase1, h, best', board');
        MaxChoiceCons(moves, i, v, best, board, MaxExamined(moves, i + 1, depth, alpha', beta, phase1, h, best'),
                      MaxLoop(moves, i + 1, depth, alpha', beta, phase1, h, best', board'));
      }
    }
  }

  /** The minimising loop, symmetric to `MaxLoopBoard` (`MinChoice`). */
  lemma {:induction false} MinLoopBoard(moves: seq<Board>, i: nat, depth: nat, alpha: Score, beta: Score, phase1: bool,
                                        h: Evaluator, best: Score, board: Board)
    requires i <= |moves|
    ensures |MinExamined(moves, i, depth, alpha, beta, phase1, h, best)| <= |moves| - i
    ensures i < |moves| ==> |MinExamined(moves, i, depth, alpha, beta, phase1, h, best)| > 0
    ensures MinChoice(moves, i, MinExamined(moves, i, depth, alpha, beta, phase1, h, best), best, board,
                      MinLoop(moves, i, depth, alpha, beta, phase1, h, best, board))
    decreases |moves| - i
  {
    if i < |moves| {
      var v := Search(moves[i], depth, true, alpha, beta, phase1, h).score;
      var best' := if Lt(v, best) then v else best;
      var board' := if Lt(v, best) then moves[i] else board;
      var beta' := Min(beta, best');
      if Le(beta', alpha) {
        MinChoiceCons(moves, i, v, best, board, [], Outcome(best', board'));
        assert [v] + [] == [v];
      } else {
        MinLoopBoard(moves, i + 1, depth, alpha, beta', phase1, h, best', board');
        MinChoiceCons(moves, i, v, best, board, MinExamined(moves, i + 1, depth, alpha, beta', phase1, h, best'),
                      MinLoop(moves, i + 1, depth, alpha, beta', phase1, h, best', board'));
      }
    }
  }

  /** The board `minimax` returns is the input board or one of the successors of the side to
      move; it is the input board, with the heuristic value, on a terminal board or when there is
      no successor; and when successors exist and the score is not the loss sentinel of the side
      to move, the board is a successor. */
  lemma SearchBoard(b: Board, depth: nat, maximizing: bool, alpha: Score, beta: Score, phase1: bool, h: Evaluator)
    ensures var r := Search(b, depth, maximizing, alpha, beta, phase1, h);
      var moves := Gen(b, if maximizing then P1 else P2, phase1);
      && (r.board == b || r.board in moves)
      && (Terminal(b, depth, phase1) || moves == [] ==> r == Outcome(Evaluate(h, b, phase1), b))
      && (!Terminal(b, depth, phase1) && moves != [] && r.score != (if maximizing then NegInf else PosInf) ==> r.board in moves)
  {
    if !Terminal(b, depth, phase1) {
      if maximizing {
        MaxNodeBoard(b, depth - 1, alpha, beta, phase1, h);
      } else {
        MinNodeBoard(b, depth - 1, alpha, beta, phase1, h);
      }
    }
  }

  /** `SearchBoard` for the maximising branch. */
  lemma MaxNodeBoard(b: Board, depth: nat, alpha: Score, beta: Score, phase1: bool, h: Evaluator)
    ensures var r := MaxNode(b, depth, alpha, beta, phase1, h);
      var moves := Gen(b, P1, phase1);
      && (r.board == b || r.board in moves)
      && (moves == [] ==> r == Outcome(Evaluate(h, b, phase1), b))
      && (moves != [] && r.score != NegInf ==> r.board in moves)
  {
    MaxLoopBoard(Gen(b, P1, phase1), 0, depth, alpha, beta, phase1, h, NegInf, b);
  }

  /** `SearchBoard` for the minimising branch. */
  lemma MinNodeBoard(b: Board, depth: nat, alpha: Score, beta: Score, phase1: bool, h: Evaluator)
    ensures var r := MinNode(b, depth, alpha, beta, phase1, h);
      var moves := Gen(b, P2, phase1);
      && (r.board == b || r.board in moves)
      && (moves == [] ==> r == Outcome(Evaluate(h, b, phase1), b))
      && (moves != [] && r.score != PosInf ==> r.board in moves)
  {
    MinBranchGeneration(b, phase1);
    MinLoopBoard(Gen(b, P2, phase1), 0, depth, alpha, beta, phase1, h, PosInf, b);
  }

  /** `minimax` as the recursive procedure of the original program: a fresh `Evaluer` whose
      fields are overwritten as better successors are found. */
  method RunMinimax(b: Board, depth: nat, maximizing: bool, alpha: Score, beta: Score, phase1: bool, h: Evaluator)
    returns (e: Evaluer)
    ensures fresh(e)
    ensures e.score == Search(b, depth, maximizing, alpha, beta, phase1, h).score
    ensures e.board == Search(b, depth, maximizing, alpha, beta, phase1, h).board
    decreases depth, 2
  {
    e := new Evaluer(b);
    if depth == 0 || (!phase1 && (Count(b, P1) < 3 || Count(b, P2) < 3)) {
      e.score := Evaluate(h, b, phase1);
      assert Terminal(b, depth, phase1);
      return;
    }
    assert !Terminal(b, depth, phase1);
    if maximizing {
      MaxBranch(e, b, depth - 1, alpha, beta, phase1, h);
    } else {
      MinBranch(e, b, depth - 1, alpha, beta, phase1, h);
    }
  }

  /** The `if maximisant:` branch of `minimax`, on the record `e` created for `b`. */
  method MaxBranch(e: Evaluer, b: Board, depth: nat, alpha: Score, beta: Score, phase1: bool, h: Evaluator)
    requires e.board == b
    modifies e
    ensures e.score == MaxNode(b, depth, alpha, beta, phase1, h).score
    ensures e.board == MaxNode(b, depth, alpha, beta, phase1, h).board
    decreases depth + 1, 1
  {
    var moves: seq<Board>;
    if phase1 {
      moves := PlacementMoves(b);
    } else {
      moves := MoveList(b, P1);
    }
    assert moves == Gen(b, P1, phase1);
    var best := MaxChildren(e, moves, depth, alpha, beta, phase1, h);
    e.score := if |moves| > 0 then best else Evaluate(h, b, phase1);
  }

  /** The `for config in mouvementsPossibles:` loop of the maximising branch. */
  method MaxChildren(e: Evaluer, moves: seq<Board>, depth: nat, alpha: Score, beta: Score, phase1: bool, h: Evaluator)
    returns (best: Score)
    modifies e
    ensures Outcome(best, e.board) == MaxLoop(moves, 0, depth, alpha, beta, phase1, h, NegInf, old(e.board))
    decreases depth + 1, 0
  {
    best := NegInf;
    var a := alpha;
    ghost var target := MaxLoop(moves, 0, depth, alpha, beta, phase1, h, NegInf, e.board);
    for i := 0 to |moves|
      invariant MaxLoop(moves, i, depth, a, beta, phase1, h, best, e.board) == target
    {
      var current := RunMinimax(moves[i], depth, false, a, beta, phase1, h);
      if Lt(best, current.score) {
        best := current.score;
        e.board := moves[i];
      }
      a := Max(a, best);
      if Le(beta, a) {
        assert target == Outcome(best, e.board);
        return;
      }
    }
  }

  /** The `else:` branch of `minimax`: the moves of '2' come from inverting `b`, generating the
      moves of '1' and inverting each successor back. */
  method MinBranch(e: Evaluer, b: Board, depth: nat, alpha: Score, beta: Score, phase1: bool, h: Evaluator)
    requires e.board == b
    modifies e
    ensures e.score == MinNode(b, depth, alpha, beta, phase1, h).score
    ensures e.board == MinNode(b, depth, alpha, beta, phase1, h).board
    decreases depth + 1, 1
  {
    var moves: seq<Board>;
    var inverted := InvertBoard(b);
    if phase1 {
      moves := PlacementMoves(inverted);
    } else {
      moves := MoveList(inverted, P1);
    }
    moves := InvertList(moves);
    assert moves == InvertAll(Gen(Invert(b), P1, phase1));
    var best := MinChildren(e, moves, depth, alpha, beta, phase1, h);
    e.score := if |moves| > 0 then best else Evaluate(h, b, phase1);
  }

  /** The `for config in mouvementsPossibles:` loop of the minimising branch. */
  method MinChildren(e: Evaluer, moves: seq<Board>, depth: nat, alpha: Score, beta: Score, phase1: bool, h: Evaluator)
    returns (best: Score)
    modifies e
    ensures Outcome(best, e.board) == MinLoop(moves, 0, depth, alpha, beta, phase1, h, PosInf, old(e.board))
    decreases depth + 1, 0
  {
    best := PosInf;
    var bt := beta;
    ghost var target := MinLoop(moves, 0, depth, alpha, beta, phase1, h, PosInf, e.board);
    for i := 0 to |moves|
      invariant MinLoop(moves, i, depth, alpha, bt, phase1, h, best, e.board) == target
    {
      var current := RunMinimax(moves[i], depth, true, alpha, bt, phase1, h);
      if Lt(current.score, best) {
        best := current.score;
        e.board := moves[i];
      }
      bt := Min(bt, best);
      if Le(bt, alpha) {
        assert target == Outcome(best, e.board);
        return;
      }
    }
  }
}
