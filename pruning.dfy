/** What the alpha-beta search of `src/ia/minimax.py` computes, compared with plain minimax over
    the same game tree: the pruned score is "fail-soft" with respect to the window it was given,
    so with the initial window `(-inf, +inf)` it is exactly the minimax value. */
module Pruning {
  import opened Boards
  import opened Moves
  import opened Symmetry
  import opened Scores
  import opened Minimax

  /** Plain minimax without pruning: '1' maximises over its moves, '2' minimises over its own,
      generated directly; a terminal board or a board without moves is worth its heuristic value. */
  function Value(b: Board, depth: nat, maximizing: bool, phase1: bool, h: Evaluator): Score
    decreases depth, 1
  {
    if Terminal(b, depth, phase1) then Evaluate(h, b, phase1)
    else
      var moves := Gen(b, if maximizing then P1 else P2, phase1);
      if moves == [] then Evaluate(h, b, phase1)
      else if maximizing then MaxValue(moves, depth - 1, phase1, h)
      else MinValue(moves, depth - 1, phase1, h)
  }

  /** The largest minimax value of the successors, `-inf` for none. */
  function MaxValue(moves: seq<Board>, depth: nat, phase1: bool, h: Evaluator): Score
    decreases depth, |moves| + 1
  {
    if moves == [] then NegInf
    else Max(MaxValue(moves[..|moves| - 1], depth, phase1, h), Value(moves[|moves| - 1], depth, false, phase1, h))
  }

  /** The smallest minimax value of the successors, `+inf` for none. */
  function MinValue(moves: seq<Board>, depth: nat, phase1: bool, h: Evaluator): Score
    decreases depth, |moves| + 1
  {
    if moves == [] then PosInf
    else Min(MinValue(moves[..|moves| - 1], depth, phase1, h), Value(moves[|moves| - 1], depth, true, phase1, h))
  }

  /** `v` is a fail-soft answer for true value `m` in the window `(alpha, beta)`: exact inside the
      window, an upper bound at or below `alpha`, a lower bound at or above `beta`. */
  predicate FailSoft(v: Score, m: Score, alpha: Score, beta: Score)
  {
    && (Le(v, alpha) ==> Le(m, v))
    && (Le(beta, v) ==> Le(v, m))
    && (Lt(alpha, v) && Lt(v, beta) ==> v == m)
  }

  /** Every successor's value is at most their maximum. */
  lemma {:induction false} MaxValueUpper(moves: seq<Board>, k: nat, depth: nat, phase1: bool, h: Evaluator)
    requires k < |moves|
    ensures Le(Value(moves[k], depth, false, phase1, h), MaxValue(moves, depth, phase1, h))
  {
    var n := |moves|;
    if k < n - 1 {
      assert moves[..n - 1][k] == moves[k];
      MaxValueUpper(moves[..n - 1], k, depth, phase1, h);
    }
  }

  /** Every successor's value is at least their minimum. */
  lemma {:induction false} MinValueLower(moves: seq<Board>, k: nat, depth: nat, phase1: bool, h: Evaluator)
    requires k < |moves|
    ensures Le(MinValue(moves, depth, phase1, h), Value(moves[k], depth, true, phase1, h))
  {
    var n := |moves|;
    if k < n - 1 {
      assert moves[..n - 1][k] == moves[k];
      MinValueLower(moves[..n - 1], k, depth, phase1, h);
    }
  }

  /** Alpha-beta search is fail-soft for every non-empty window. */
  lemma {:induction false} SearchFailSoft(b: Board, depth: nat, maximizing: bool, alpha: Score, beta: Score, phase1: bool, h: Evaluator)
    requires Lt(alpha, beta)
    ensures FailSoft(Search(b, depth, maximizing, alpha, beta, phase1, h).score, Value(b, depth, maximizing, phase1, h), alpha, beta)
    decreases depth, 1
  {
    if !Terminal(b, depth, phase1) {
      if maximizing {
        var moves := Gen(b, P1, phase1);
        if moves != [] {
          assert moves[..0] == [];
          MaxLoopFailSoft(moves, 0, depth - 1, alpha, alpha, beta, phase1, h, NegInf, b);
        }
      } else {
        MinBranchGeneration(b, phase1);
        var moves := Gen(b, P2, phase1);
        if moves != [] {
          assert moves[..0] == [];
          MinLoopFailSoft(moves, 0, depth - 1, beta, alpha, beta, phase1, h, PosInf, b);
        }
      }
    }
  }

  /** The maximising loop, entered at the `i`-th successor with best score `best` (a fail-soft
      summary of the successors already seen) and `alpha` raised to it, returns a fail-soft
      maximum of all successors for the original window `(alpha0, beta)`. */
  lemma {:induction false} MaxLoopFailSoft(moves: seq<Board>, i: nat, depth: nat, alpha0: Score, alpha: Score, beta: Score,
                                           phase1: bool, h: Evaluator, best: Score, board: Board)
    requires i <= |moves|
    requires Lt(alpha0, beta) && Lt(best, beta)
    requires alpha == Max(alpha0, best)
    requires Le(MaxValue(moves[..i], depth, phase1, h), best)
    requires Lt(alpha0, best) ==> MaxValue(moves[..i], depth, phase1, h) == best
    ensures FailSoft(MaxLoop(moves, i, depth, alpha, beta, phase1, h, best, board).score, MaxValue(moves, depth, phase1, h), alpha0, beta)
    decreases depth, |moves| - i + 1
  {
    if i == |moves| {
      assert moves[..i] == moves;
    } else {
      var v := Search(moves[i], depth, false, alpha, beta, phase1, h).score;
      SearchFailSoft(moves[i], depth, false, alpha, beta, phase1, h);
      assert moves[..i + 1][..i] == moves[..i];
      MaxValueUpper(moves, i, depth, phase1, h);
      MaxStep(alpha0, alpha, beta, best, v, MaxValue(moves[..i], depth, phase1, h),
              Value(moves[i], depth, false, phase1, h), MaxValue(moves, depth, phase1, h));
      var best' := if Lt(best, v) then v else best;
      var board' := if Lt(best, v) then moves[i] else board;
      var alpha' := Max(alpha, best');
      if !Le(beta, alpha') {
        MaxLoopFailSoft(moves, i + 1, depth, alpha0, alpha', beta, phase1, h, best', board');
      }
    }
  }

  /** The score reasoning of one step of the maximising loop: with `v` a fail-soft value of a
      successor worth `m`, either the step cuts off with a fail-soft answer for any total `t` at
      least `m`, or the loop's requirements hold again for the prefix value `Max(pre, m)`. */
  lemma MaxStep(alpha0: Score, alpha: Score, beta: Score, best: Score, v: Score, pre: Score, m: Score, t: Score)
    requires Lt(alpha0, beta) && Lt(best, beta)
    requires alpha == Max(alpha0, best)
    requires Le(pre, best) && (Lt(alpha0, best) ==> pre == best)
    requires FailSoft(v, m, alpha, beta) && Le(m, t)
    ensures var best' := if Lt(best, v) then v else best;
      var alpha' := Max(alpha, best');
      if Le(beta, alpha') then FailSoft(best', t, alpha0, beta)
      else (Lt(best', beta) && alpha' == Max(alpha0, best') && Le(Max(pre, m), best')
            && (Lt(alpha0, best') ==> Max(pre, m) == best'))
  {
    TotalOrder(v, m, t);
    TotalOrder(alpha0, beta, v);
    TotalOrder(pre, best, v);
    TotalOrder(alpha0, best, v);
    TotalOrder(m, v, alpha);
  }

  /** The minimising loop, symmetric to `MaxLoopFailSoft` for the window `(alpha, beta0)`. */
  lemma {:induction false} MinLoopFailSoft(moves: seq<Board>, i: nat, depth: nat, beta0: Score, alpha: Score, beta: Score,
                                           phase1: bool, h: Evaluator, best: Score, board: Board)
    requires i <= |moves|
    requires Lt(alpha, beta0) && Lt(alpha, best)
    requires beta == Min(beta0, best)
    requires Le(best, MinValue(moves[..i], depth, phase1, h))
    requires Lt(best, beta0) ==> MinValue(moves[..i], depth, phase1, h) == best
    ensures FailSoft(MinLoop(moves, i, depth, alpha, beta, phase1, h, best, board).score, MinValue(moves, depth, phase1, h), alpha, beta0)
    decreases depth, |moves| - i + 1
  {
    if i == |moves| {
      assert moves[..i] == moves;
    } else {
      var v := Search(moves[i], depth, true, alpha, beta, phase1, h).score;
      SearchFailSoft(moves[i], depth, true, alpha, beta, phase1, h);
      assert moves[..i + 1][..i] == moves[..i];
      MinValueLower(moves, i, depth, phase1, h);
      MinStep(beta0, alpha, beta, best, v, MinValue(moves[..i], depth, phase1, h),
              Value(moves[i], depth, true, phase1, h), MinValue(moves, depth, phase1, h));
      var best' := if Lt(v, best) then v else best;
      var board' := if Lt(v, best) then moves[i] else board;
      var beta' := Min(beta, best');
      if !Le(beta', alpha) {
        MinLoopFailSoft(moves, i + 1, depth, beta0, alpha, beta', phase1, h, best', board');
      }
    }
  }

  /** The score reasoning of one step of the minimising loop, symmetric to `MaxStep`. */
  lemma MinStep(beta0: Score, alpha: Score, beta: Score, best: Score, v: Score, pre: Score, m: Score, t: Score)
    requires Lt(alpha, beta0) && Lt(alpha, best)
    requires beta == Min(beta0, best)
    requires Le(best, pre) && (Lt(best, beta0) ==> pre == best)
    requires FailSoft(v, m, alpha, beta) && Le(t, m)
    ensures var best' := if Lt(v, best) then v else best;
      var beta' := Min(beta, best');
      if Le(beta', alpha) then FailSoft(best', t, alpha, beta0)
      else (Lt(alpha, best') && beta' == Min(beta0, best') && Le(best', Min(pre, m))
            && (Lt(best', beta0) ==> Min(pre, m) == best'))
  {
    TotalOrder(t, m, v);
    TotalOrder(alpha, beta0, v);
    TotalOrder(v, best, pre);
    TotalOrder(v, best, beta0);
    TotalOrder(beta, v, m);
  }

  /** Called with the full window, as the game does, the pruned search returns exactly the
      minimax value of the tree. */
  lemma RootValue(b: Board, depth: nat, maximizing: bool, phase1: bool, h: Evaluator)
    ensures Search(b, depth, maximizing, NegInf, PosInf, phase1, h).score == Value(b, depth, maximizing, phase1, h)
  {
    SearchFailSoft(b, depth, maximizing, NegInf, PosInf, phase1, h);
  }
}
