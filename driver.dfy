/** The two rule helpers of the AI-versus-AI driver `src/jeu/IAVsIA.py`: the repetition
    detector `detecterCycle` and the non-exiting win test `verifierVictoireAvecRetour`. */
module Driver {
  import opened Boards
  import opened Moves
  import opened Scores
  import opened Heuristics

  // ---------------------------------------------------------------- detecterCycle

  /** One call of `detecterCycle(etatsPrecedents, plateau, compteurCycles)`: the stop flag, the
      new counter and the new set of seen boards. */
  function CycleStep(seen: set<Board>, b: Board, counter: int): (r: (bool, int, set<Board>))
    ensures b !in seen ==> !r.0 && r.1 == counter && r.2 == seen + {b}
    ensures b in seen ==> r.1 == counter + 1 && r.2 == seen
    ensures r.0 <==> b in seen && r.1 > 5
    ensures r.1 >= counter && seen <= r.2 && b in r.2
  {
    if b in seen then (counter + 1 > 5, counter + 1, seen) else (false, counter, seen + {b})
  }

  /** The set of previously seen boards, which `detecterCycle` updates in place. */
  class CycleDetector {
    var seen: set<Board>

    constructor ()
      ensures seen == {}
    {
      seen := {};
    }

    /** `detecterCycle` on this detector's set. */
    method Detect(b: Board, counter: int) returns (stop: bool, newCounter: int)
      modifies this
      ensures (stop, newCounter, seen) == CycleStep(old(seen), b, counter)
    {
      newCounter := counter;
      if b in seen {
        newCounter := newCounter + 1;
        if newCounter > 5 {
          return true, newCounter;
        }
      } else {
        seen := seen + {b};
      }
      return false, newCounter;
    }
  }

  /** The counter and the seen set after calling `detecterCycle` on each board of a game in turn. */
  function Feed(seen: set<Board>, counter: int, boards: seq<Board>): (int, set<Board>)
    decreases |boards|
  {
    if boards == [] then (counter, seen)
    else
      var r := CycleStep(seen, boards[0], counter);
      Feed(r.2, r.1, boards[1..])
  }

  /** Every call either records a new board or counts one repetition, never both: over a game,
      the counter plus the number of seen boards grows by exactly the number of calls, and the
      seen set ends as the initial one plus every board of the game. */
  lemma {:induction false} FeedAccounting(seen: set<Board>, counter: int, boards: seq<Board>)
    ensures forall x :: x in Feed(seen, counter, boards).1 <==> x in seen || x in boards
    ensures Feed(seen, counter, boards).0 + |Feed(seen, counter, boards).1| == counter + |seen| + |boards|
    decreases |boards|
  {
    if boards != [] {
      var r := CycleStep(seen, boards[0], counter);
      FeedAccounting(r.2, r.1, boards[1..]);
      assert boards == [boards[0]] + boards[1..];
    }
  }

  // ---------------------------------------------------------------- verifierVictoireAvecRetour

  /** The answer of `verifierVictoireAvecRetour`: the winner, or `None`. */
  datatype Verdict = NoWinner | Wins(p: Player)

  /** `verifierVictoireAvecRetour(plateau)`: '2' wins when '1' has fewer than three pieces or no
      move; this is tested first, so it also holds when both sides are beaten. */
  function Winner(b: Board): (r: Verdict)
    ensures r == Wins(P2) <==> Count(b, P1) < 3 || |Moves2or3(b, P1)| == 0
    ensures r == Wins(P1) <==> Count(b, P1) >= 3 && |Moves2or3(b, P1)| > 0 && (Count(b, P2) < 3 || |Moves2or3(b, P2)| == 0)
    ensures r == NoWinner <==> Count(b, P1) >= 3 && |Moves2or3(b, P1)| > 0 && Count(b, P2) >= 3 && |Moves2or3(b, P2)| > 0
  {
    if Count(b, P1) < 3 || |Moves2or3(b, P1)| == 0 then Wins(P2)
    else if Count(b, P2) < 3 || |Moves2or3(b, P2)| == 0 then Wins(P1)
    else NoWinner
  }

  /** A player with more than three pieces, all of them surrounded, cannot move and loses. */
  lemma SurroundedLoses(b: Board, j: Player)
    requires Count(b, j) > 3 && BlockedPieces(b, j) == Count(b, j)
    ensures Moves2or3(b, j) == []
    ensures j == P1 ==> Winner(b) == Wins(P2)
    ensures j == P2 && Winner(b) != Wins(P2) ==> Winner(b) == Wins(P1)
  {
    AllBlockedNoSlides(b, j);
  }

  /** On a board the rule declares undecided, the naive and advanced evaluators of the moving
      phase are finite. */
  lemma UndecidedIsFinite(b: Board)
    requires Winner(b) == NoWinner
    ensures Naive(b, false).Fin? && Advanced(b, false).Fin?
  {
  }

  /** Where the advanced evaluator of the moving phase reports a loss for '1', the rule also
      declares '2' the winner. */
  lemma AdvancedLossAgrees(b: Board)
    requires Advanced(b, false) == NegInf
    ensures Winner(b) == Wins(P2)
  {
  }

  /** The naive evaluator and the rule disagree on an immobile '1': when '2' keeps at least three
      pieces and '1' has no move, the evaluator reports a win for '1' while the rule declares '2'
      the winner. */
  lemma NaiveImmobileDisagrees(b: Board)
    requires Count(b, P2) >= 3 && |Moves2or3(b, P1)| == 0
    ensures Naive(b, false) == PosInf && Winner(b) == Wins(P2)
  {
  }
}
