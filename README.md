# Nine Men's Morris search core, modelled in Dafny

This project models the game-tree search of a Nine Men's Morris ("jeu du moulin") program.
The program's AI always plays '1' as the maximizing side and '2' as the minimizing side. It
searches a depth-bounded minimax tree with alpha-beta pruning over boards of 24 points.

The model covers five parts of the program:

- **Board and topology** (`boards.dfy`, `topology.dfy`). A board is a sequence of 24 cells
  (`Empty`, `P1`, `P2`). The module holds the adjacency table of `positionsAdjacentes`, the
  mill table hard-coded in `prochainMoulin`, `moulinCree`, `nombrePion`, and the colour swap
  `plateauInverse` / `genereListePlateauInverse`.
- **Mill counts** (`mills.dfy`). This covers `nombrePossibleMoulins`, `moulinEnFormation` and
  `nombrePiecesMoulinEnFormation`. The last one is also modelled on an array, with its temporary
  write and the restoration of the board.
- **Move generation** (`moves.dfy`, `symmetry.dfy`). This covers `retirerPiece`, placement
  (`mouvementsPossiblesEtape1`), sliding (`…Etape2`), flying (`…Etape3`) and the `…Etape2ou3`
  dispatch. Each generator is a loop method proved equal to a recursive list function. Lemmas
  characterise the members of every list and the shape of every successor. Further lemmas
  show that generation commutes with the colour swap.
- **Evaluators** (`scores.dfy`, `heuristics.dfy`). These are the naive, advanced and expert
  heuristics with their exact weights. Scores are extended integers (`NegInf | Fin(n) |
  PosInf`), because the program uses `float('inf')` only as a win/loss sentinel.
- **Search** (`minimax.dfy`, `pruning.dfy`). `minimax` becomes a method that fills a fresh
  `Evaluer` object. It is proved equal to a recursive function `Search`. `Search` is shown
  fail-soft against an unpruned reference minimax `Value`, so with the full window at the root
  it returns the plain minimax value.
- **Driver helpers** (`driver.dfy`). These are the repetition detector `detecterCycle` (a
  class holding the set of seen boards) and the non-exiting win rule `verifierVictoireAvecRetour`.

The model follows the code where the code departs from the usual rules of Nine Men's Morris:

- `retirerPiece` never removes a piece that sits in a closed mill. It makes no exception when
  every opponent piece is in a mill (src/ia/utils.py:193-198).
- A move that closes a mill while no opponent piece is removable yields no successor at all.
  The move is not kept unexpanded (src/ia/utils.py:214-215 and 239-240; `Moves.RemovalsEmpty`,
  `Moves.ExpandNoCapture`).
- `heuristiqueNaive` reports a win for '1' when '1' has no move (src/ia/heuristiques.py:18-22).
  The win rule of the driver declares '2' the winner on the same board
  (`Driver.NaiveImmobileDisagrees`).
- `heuristiqueExperte` never returns an infinite score, even on a lost or won board
  (src/ia/heuristiques.py:107-178).

## Model

| member | source | states |
|---|---|---|
| Boards.Opponent | src/ia/utils.py:192 | the opponent of a player is the other player |
| Boards.Count | src/ia/utils.py:176-182 | `nombrePion` never exceeds the board length |
| Boards.CountPartition | src/ia/utils.py:176-182 | the counts of 'x', '1' and '2' add up to the number of points |
| Boards.CountUpdate | src/ia/utils.py:176-182 | overwriting one point changes each count by exactly what the write removes and adds |
| Boards.CountPositive | src/ia/utils.py:176-182 | a count is positive iff some point holds the value |
| Boards.InvertBoard | src/ia/utils.py:284-297 | the loop of `plateauInverse` computes the colour swap of every point |
| Boards.InvertInvolution | src/ia/utils.py:284-297 | swapping colours twice gives the board back |
| Boards.CountInvert | src/ia/utils.py:284-297 | the swapped board holds the swapped value exactly as often as the board held the value |
| Boards.InvertCounts | src/ia/utils.py:284-297 | `plateauInverse` keeps the empty points and exchanges the piece counts of '1' and '2' |
| Boards.InvertUpdate | src/ia/utils.py:284-297 | writing then swapping equals swapping then writing the swapped cell |
| Boards.InvertList | src/ia/utils.py:300-308 | the loop of `genereListePlateauInverse` swaps every board of the list, in order |
| Boards.InvertAllAppend | src/ia/utils.py:300-308 | swapping a list distributes over concatenation |
| Boards.InvertAllInvolution | src/ia/utils.py:300-308 | swapping a list twice gives the list back |
| Topology.AdjacencyShape | src/ia/utils.py:57-65 | 24 entries, each point has 2 to 4 neighbours, and no point is its own neighbour |
| Topology.AdjacencySymmetric | src/ia/utils.py:62-64 | q is a neighbour of p iff p is a neighbour of q |
| Topology.MillTableShape | src/ia/utils.py:86-109 | each point has two companion pairs of four distinct points other than itself |
| Topology.MillTableSymmetric | src/ia/utils.py:86-109 | if p lists (a, b), then a lists {p, b} and b lists {p, a} |
| Topology.LinesShape | src/ia/utils.py:86-109 | the reference list holds 16 distinct ordered lines, each a path of two adjacent steps whose ends are not adjacent to each other |
| Topology.MillTableIsLines | src/ia/utils.py:86-109 | each point's two companion pairs complete two different lines of the 16 through it |
| Topology.TwoLinesThroughEachPoint | src/ia/utils.py:86-109 | no other line passes through a point, so the table describes exactly the 16 lines |
| Topology.NextMillIgnoresOwnCell | src/ia/utils.py:79-110 | `prochainMoulin(p, b, j)` does not read `b[p]` |
| Topology.NextMillMeansLine | src/ia/utils.py:68-110 | `prochainMoulin(p, b, j)` holds iff the two other points of some line through p hold j |
| Topology.ClosedMillMeansLine | src/ia/utils.py:113-123 | `moulinCree` is false on an empty point, otherwise true iff a whole line through p belongs to p's owner |
| Mills.NextMillInvert | src/ia/utils.py:79-110 | after the colour swap, the opponent completes exactly the lines the player completed |
| Mills.ClosedMillInvert | src/ia/utils.py:113-123 | the colour swap keeps which pieces are in closed mills |
| Mills.CountPossibleMills | src/ia/utils.py:126-136 | the loop of `nombrePossibleMoulins` counts the empty points where j would close a mill |
| Mills.PossibleMillsBounds | src/ia/utils.py:126-136 | the count is at most the number of empty points, and positive iff some empty point would close a mill |
| Mills.PossibleMillsUpToInvert | src/ia/utils.py:126-136 | after the colour swap, the opponent's count equals the player's count |
| Mills.InFormation | src/ia/utils.py:139-150 | `moulinEnFormation` is true iff some neighbour holds j and j cannot close a mill on p |
| Mills.FormingHitForOne | src/ia/utils.py:164-169 | for '1', the temporary write of '2' asks whether the piece blocks a mill of '2' |
| Mills.FormingAdjBound | src/ia/utils.py:162-172 | one point contributes at most one hit per neighbour |
| Mills.FormingPiecesBound | src/ia/utils.py:153-173 | `nombrePiecesMoulinEnFormation` is at most four per piece of the player |
| Mills.CountFormingPieces | src/ia/utils.py:153-173 | the nested loops with the temporary write compute the count and leave the board exactly as given |
| Mills.CountFormingAt | src/ia/utils.py:162-172 | the inner loop over one piece's neighbours counts its hits and restores the point it overwrote |
| Moves.RemovePiece | src/ia/utils.py:185-200 | the incoming list is kept as a prefix, followed by the removal successors |
| Moves.RemovalsMembers | src/ia/utils.py:185-200 | a board is appended iff it is the input with one opponent piece outside any closed mill cleared |
| Moves.RemovalsShape | src/ia/utils.py:193-198 | every appended board clears one removable piece, in ascending order of the cleared point |
| Moves.RemovalsEmpty | src/ia/utils.py:185-200 | nothing is appended iff every opponent piece is in a closed mill |
| Moves.ExpandMembers | src/ia/utils.py:214-217 | after a write, the successors are the removal boards if a mill closed, else the written board alone |
| Moves.ExpandNoCapture | src/ia/utils.py:214-215 | a mill closed with every opponent piece protected yields no successor |
| Moves.NextMillOtherWrite | src/ia/utils.py:79-110 | clearing an opponent piece does not change whether j completes a line |
| Moves.ExpandShape | src/ia/utils.py:185-200 | a successor keeps the mover's count and the closed mill, and clears one opponent piece exactly when a mill closed |
| Moves.PlacementMoves | src/ia/utils.py:203-219 | the loop of `mouvementsPossiblesEtape1` builds the placement list in generation order |
| Moves.PlacementMembers | src/ia/utils.py:203-219 | a board is a placement successor iff it places j on an empty point, then expands the capture |
| Moves.PlacementShape | src/ia/utils.py:203-219 | each successor fills one empty point with j, has one more j piece, and loses an opponent piece only when the placement closed a mill |
| Moves.MoveToMeans | src/ia/utils.py:234-242 | moving to d yields s iff d was empty and s expands the moved board |
| Moves.MoveShape | src/ia/utils.py:235-242 | a moved successor empties the source, fills the target, keeps the mover's count and clears at most one opponent piece |
| Moves.SlidePiece | src/ia/utils.py:233-242 | the inner loop appends the successors of one piece over its neighbours in table order |
| Moves.SlideMoves | src/ia/utils.py:222-245 | the loops of `mouvementsPossiblesEtape2` build the slide list in generation order |
| Moves.SlideTargetsMembers | src/ia/utils.py:233-242 | the successors of one piece are its moves to an empty listed neighbour |
| Moves.SlideMembers | src/ia/utils.py:222-245 | a board is a slide successor iff it moves a piece of j to an empty adjacent point and expands the capture |
| Moves.FlyMoves | src/ia/utils.py:248-269 | the loops of `mouvementsPossiblesEtape3` build the fly list in generation order |
| Moves.FlyTargetsMembers | src/ia/utils.py:256-265 | the successors of one piece are its moves to any empty point |
| Moves.FlyMembers | src/ia/utils.py:248-269 | a board is a fly successor iff it moves a piece of j to any empty point and expands the capture |
| Moves.MoveList | src/ia/utils.py:272-281 | the dispatch flies exactly when j has three pieces |
| Moves.MovePhaseShape | src/ia/utils.py:222-281 | each successor keeps the mover's count, empties one mover point and fills one empty point (adjacent unless flying), and removes at most one opponent piece |
| Symmetry.RemovableInvert | src/ia/utils.py:194-195 | a piece is removable for j iff it is removable for the opponent on the swapped board |
| Symmetry.RemovalsInvert | src/ia/utils.py:185-200 | swapping the removal list equals the opponent's removal list on the swapped board |
| Symmetry.ExpandInvert | src/ia/utils.py:214-217 | capture expansion commutes with the colour swap |
| Symmetry.MoveInvert | src/ia/utils.py:235-237 | moving a piece commutes with the colour swap |
| Symmetry.PlacementsInvert | src/ia/utils.py:203-219 | placement generation commutes with the colour swap |
| Symmetry.ArrivalsInvert | src/ia/utils.py:236-241 | the successors of one move, captures included, commute with the colour swap |
| Symmetry.SlideTargetsUpToInvert | src/ia/utils.py:233-242 | one piece's slide list commutes with the colour swap |
| Symmetry.SlidesUpToInvert | src/ia/utils.py:222-245 | slide generation commutes with the colour swap |
| Symmetry.FlyTargetsUpToInvert | src/ia/utils.py:256-265 | one piece's fly list commutes with the colour swap |
| Symmetry.FliesUpToInvert | src/ia/utils.py:248-269 | fly generation commutes with the colour swap |
| Symmetry.Moves2or3Invert | src/ia/utils.py:272-281 | swapping the move list of j equals the opponent's move list on the swapped board |
| Symmetry.MinBranchGeneration | src/ia/minimax.py:52-54 | invert, generate for '1', invert back equals direct generation of '2' moves, element by element and in order |
| Scores.Max | src/ia/minimax.py:43 | `max` is an upper bound of both arguments and is one of them |
| Scores.Min | src/ia/minimax.py:61 | `min` is a lower bound of both arguments and is one of them |
| Scores.TotalOrder | src/ia/minimax.py:39 | the comparison of scores, with -inf and +inf at the ends, is a total order |
| Heuristics.BlockedPiecesBound | src/ia/heuristiques.py:145-148 | the blocked count is at most the piece count, and equal iff every piece is blocked |
| Heuristics.AllBlockedNoSlides | src/ia/heuristiques.py:174-175 | a player whose every piece is blocked has no slide |
| Heuristics.DoubleMillsAreInMill | src/ia/heuristiques.py:167-170 | the double-mill count equals the number of the player's pieces in a closed mill |
| Heuristics.InMillUpToBound | src/ia/heuristiques.py:167-170 | the count of pieces in closed mills over a prefix is at most the prefix's piece count |
| Heuristics.InMillUpToPositive | src/ia/heuristiques.py:167-170 | the count over a prefix is positive iff some piece of the prefix stands in a closed mill |
| Heuristics.AnyClosedMillCount | src/ia/heuristiques.py:135-136 | "some piece closes a mill" holds iff the count of pieces in closed mills is positive |
| Heuristics.Naive | src/ia/heuristiques.py:6-33 | finite during placement; +inf iff outside placement '2' has at most two pieces or '1' has no move; -inf iff otherwise '1' has at most two pieces |
| Heuristics.NaiveBounds | src/ia/heuristiques.py:26-33 | a finite naive score is never negative and is bounded by the counts it weighs |
| Heuristics.Advanced | src/ia/heuristiques.py:36-104 | finite during placement; outside it, '1' below three pieces gives -inf first, then '2' below three gives +inf, then '2' without moves gives +inf, then '1' without moves gives -inf |
| Heuristics.AdvancedMobilityTerm | src/ia/heuristiques.py:84-89 | outside placement the finite score adds exactly 5 times the mobility difference to the placement score |
| Heuristics.AdvancedBlockedTerm | src/ia/heuristiques.py:97-102 | beyond the piece, mill and forming terms, the score adds between 0 and 30 per piece of '2' |
| Heuristics.ExpertWeights | src/ia/heuristiques.py:123-130 | the double-mill and winning weights are 0 during placement, the other weights are positive |
| Heuristics.Expert | src/ia/heuristiques.py:107-178 | the expert score is always finite |
| Heuristics.ExpertMerged | src/ia/heuristiques.py:132-178 | the expert score equals the weighted feature sum, with the three-piece count equal to the possible-mill count and the double-mill count equal to the pieces in mills |
| Minimax.Evaluate | src/ia/minimax.py:29 | the selected evaluator is finite during placement, and the expert one always |
| Minimax.Evaluer.constructor | src/ia/minimax.py:6-10 | a new record holds score 0 and the given board |
| Minimax.MaxLoopBoard | src/ia/minimax.py:37-45 | the maximizing loop examines between one and all remaining successors; it keeps its board and score when no examined successor scores strictly better, and otherwise returns the first examined successor with the highest score, with that score (ties keep the earlier successor) |
| Minimax.MinLoopBoard | src/ia/minimax.py:56-64 | the minimizing loop examines between one and all remaining successors; it keeps its board and score when no examined successor scores strictly lower, and otherwise returns the first examined successor with the lowest score, with that score (ties keep the earlier successor) |
| Minimax.SearchBoard | src/ia/minimax.py:24-66 | the returned board is the input or a successor; terminal or move-less nodes return the input with its evaluation; otherwise a score better than the sentinel comes with a successor |
| Minimax.RunMinimax | src/ia/minimax.py:13-68 | `minimax` returns a fresh record holding the score and board of the search |
| Minimax.MaxBranch | src/ia/minimax.py:32-48 | the maximizing branch loop fills the record with the maximizing node's outcome |
| Minimax.MinBranch | src/ia/minimax.py:50-66 | the minimizing branch, with its inverted generation, fills the record with the minimizing node's outcome |
| Minimax.MaxChildren | src/ia/minimax.py:37-45 | the `for` loop with its break leaves in the record the board and best score of the maximizing loop over the successors |
| Minimax.MinChildren | src/ia/minimax.py:56-64 | the `for` loop with its break leaves in the record the board and best score of the minimizing loop over the successors |
| Pruning.MaxValueUpper | src/ia/minimax.py:37-48 | the unpruned maximum bounds every child value |
| Pruning.MinValueLower | src/ia/minimax.py:56-66 | the unpruned minimum is below every child value |
| Pruning.MaxLoopFailSoft | src/ia/minimax.py:37-48 | the pruned maximizing loop is a fail-soft bound of the unpruned maximum |
| Pruning.MaxStep | src/ia/minimax.py:38-45 | one maximizing step either cuts off with a fail-soft answer or keeps the best score an exact summary of the children seen inside the window |
| Pruning.MinStep | src/ia/minimax.py:57-64 | one minimizing step either cuts off with a fail-soft answer or keeps the best score an exact summary of the children seen inside the window |
| Pruning.MinLoopFailSoft | src/ia/minimax.py:56-66 | the pruned minimizing loop is a fail-soft bound of the unpruned minimum |
| Pruning.SearchFailSoft | src/ia/minimax.py:13-68 | for alpha < beta the alpha-beta score is exact inside the window, and on the correct side of the true value outside it |
| Pruning.RootValue | src/ia/minimax.py:13-68 | with alpha = -inf and beta = +inf the alpha-beta score is the unpruned minimax value |
| Driver.CycleStep | src/jeu/IAVsIA.py:17-33 | an unseen board is added with the counter unchanged and no stop; a seen board adds 1 to the counter and keeps the set; stop iff seen and the new counter exceeds 5 |
| Driver.CycleDetector.Detect | src/jeu/IAVsIA.py:17-33 | `detecterCycle` updates the seen set and returns the flag and counter of one step |
| Driver.FeedAccounting | src/jeu/IAVsIA.py:25-33 | over a game, the seen set collects every board, and the counter plus the set size grows by one per call |
| Driver.Winner | src/jeu/IAVsIA.py:36-49 | '2' wins iff '1' has fewer than three pieces or no move; '1' wins iff not that and '2' has; None iff both can play |
| Driver.SurroundedLoses | src/jeu/IAVsIA.py:43-47 | a player with more than three pieces, all of them blocked, has no move and loses |
| Driver.UndecidedIsFinite | src/jeu/IAVsIA.py:43-49 | where the rule finds no winner, the naive and advanced scores outside placement are finite |
| Driver.AdvancedLossAgrees | src/jeu/IAVsIA.py:43-44 | a -inf advanced score outside placement comes with the rule declaring '2' the winner |
| Driver.NaiveImmobileDisagrees | src/ia/heuristiques.py:18-22 | with '2' on three or more pieces and '1' immobile, the naive score is +inf while the rule declares '2' the winner |

## Left out

- Output only: `printTableau`, the colour codes, the "no valid move" message of the move
  generators and the stop message of `detecterCycle`.
- Interactive play: `demanderPosition`, `retirerPionAdverse`, `jouerTourHumain` and the exiting
  `verifierVictoire` read the keyboard and end the process. The human capture rule of
  `retirerPionAdverse` is different from `retirerPiece` and is not modelled.
- Game and tournament loops: `jouerTourIA`, `tournoiIA`, the AI-versus-AI entry point and the
  two human modes. These only sequence turns, print board differences and parse arguments.
  `Driver.Feed` stands for the repeated calls of `detecterCycle` over one game.
- Python value handling: `deepcopy` and list slicing become sequence values. The boards the
  search and the generators receive are therefore never modified, with no separate lemma
  stating it. Only `nombrePiecesMoulinEnFormation`, which writes into its argument, is modelled
  on an array (`Mills.CountFormingPieces`).
- The evaluators are modelled as functions. Their use of `nombrePiecesMoulinEnFormation` goes
  through the function `Mills.FormingPieces`, which `Mills.CountFormingPieces` is proved to
  compute while restoring the board.
- `float('inf')` scores become the `Score` datatype, and the heuristic argument of `minimax`
  becomes the `Evaluator` selector. No other floating point is involved.
- Minimax.RunMinimax: the depth is a natural number. On a negative depth the original depth test
  never fires, so its recursion stops only on the piece-count test outside placement
  (src/ia/minimax.py:28), on a board without moves (src/ia/minimax.py:48 and 66), or at Python's
  recursion limit; that behaviour is not modelled.
- Minimax.Evaluer.constructor: takes the board that the original assigns right after
  construction (`evaluationFinale.plateau = plateau[:]`). The transient empty board is not kept.
- Capture from a mill when every opponent piece is in a mill is the usual rule of the game,
  but the generators do not implement it, so the model does not either.
