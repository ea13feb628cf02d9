/** The colour swap commutes with every move generator: generating the moves of a player on the
    inverted board and inverting the results gives the moves of the opponent on the original
    board. This is what lets `minimax` produce the moves of '2' with the generators of '1'. */
module Symmetry {
  import opened Boards
  import opened Topology
  import opened Mills
  import opened Moves

  /** A piece is removable for the opponent on the inverted board exactly when it was removable
      for the player on the original one. */
  lemma RemovableInvert(c: Board, j: Player, r: Pos)
    ensures Removable(Invert(c), Opponent(j), r) == Removable(c, j, r)
  {
    ClosedMillInvert(r, c);
  }

  lemma {:induction false} RemovalsUpToInvert(c: Board, j: Player, k: nat)
    requires k <= 24
    ensures InvertAll(RemovalsUpTo(c, j, k)) == RemovalsUpTo(Invert(c), Opponent(j), k)
  {
    if k > 0 {
      RemovalsUpToInvert(c, j, k - 1);
      RemovableInvert(c, j, k - 1);
      InvertUpdate(c, k - 1, Empty);
      InvertAllAppend(RemovalsUpTo(c, j, k - 1), if Removable(c, j, k - 1) then [c[k - 1 := Empty]] else []);
    }
  }

  /** `retirerPiece` on the inverted board appends the inverted captures. */
  lemma RemovalsInvert(c: Board, j: Player)
    ensures InvertAll(Removals(c, j)) == Removals(Invert(c), Opponent(j))
  {
    RemovalsUpToInvert(c, j, 24);
  }

  lemma ExpandInvert(c: Board, dest: Pos, j: Player)
    ensures InvertAll(Expand(c, dest, j)) == Expand(Invert(c), dest, Opponent(j))
  {
    ClosedMillInvert(dest, c);
    RemovalsInvert(c, j);
  }

  lemma MoveInvert(b: Board, i: Pos, d: Pos, j: Player)
    ensures Invert(Move(b, i, d, j)) == Move(Invert(b), i, d, Opponent(j))
  {
    InvertUpdate(b, i, Empty);
    InvertUpdate(b[i := Empty], d, j);
  }

  lemma {:induction false} PlacementsUpToInvert(b: Board, j: Player, k: nat)
    requires k <= 24
    ensures InvertAll(PlacementsUpTo(b, j, k)) == PlacementsUpTo(Invert(b), Opponent(j), k)
  {
    if k > 0 {
      PlacementsUpToInvert(b, j, k - 1);
      InvertUpdate(b, k - 1, j);
      ExpandInvert(b[k - 1 := j], k - 1, j);
      InvertAllAppend(PlacementsUpTo(b, j, k - 1), if b[k - 1] == Empty then Expand(b[k - 1 := j], k - 1, j) else []);
    }
  }

  /** `mouvementsPossiblesEtape1` commutes with inversion. */
  lemma PlacementsInvert(b: Board, j: Player)
    ensures InvertAll(Placements(b, j)) == Placements(Invert(b), Opponent(j))
  {
    PlacementsUpToInvert(b, j, 24);
  }

  /** The successors of one move commute with inversion. */
  lemma ArrivalsInvert(b: Board, j: Player, i: Pos, d: Pos)
    ensures InvertAll(Arrivals(b, j, i, d)) == Arrivals(Invert(b), Opponent(j), i, d)
  {
    MoveInvert(b, i, d, j);
    ExpandInvert(Move(b, i, d, j), d, j);
  }

  lemma SlideTargetsUpToInvert(b: Board, j: Player, i: Pos, ns: seq<Pos>, t: nat)
    requires t <= |ns|
    ensures InvertAll(SlideTargetsUpTo(b, j, i, ns, t)) == SlideTargetsUpTo(Invert(b), Opponent(j), i, ns, t)
  {
    var f: Pos -> seq<Board> := d => Arrivals(b, j, i, d);
    var g: Pos -> seq<Board> := d => Arrivals(Invert(b), Opponent(j), i, d);
    forall d: Pos ensures InvertAll(f(d)) == g(d) {
      ArrivalsInvert(b, j, i, d);
    }
    GatherInvert(f, g, ns, t);
  }

  lemma {:induction false} SlidesUpToInvert(b: Board, j: Player, k: nat)
    requires k <= 24
    ensures InvertAll(SlidesUpTo(b, j, k)) == SlidesUpTo(Invert(b), Opponent(j), k)
  {
    if k > 0 {
      SlidesUpToInvert(b, j, k - 1);
      SlideTargetsUpToInvert(b, j, k - 1, Adj(k - 1), |Adj(k - 1)|);
      InvertAllAppend(SlidesUpTo(b, j, k - 1), if b[k - 1] == j then SlideTargetsUpTo(b, j, k - 1, Adj(k - 1), |Adj(k - 1)|) else []);
    }
  }

  lemma FlyTargetsUpToInvert(b: Board, j: Player, i: Pos, t: nat)
    requires t <= 24
    ensures InvertAll(FlyTargetsUpTo(b, j, i, t)) == FlyTargetsUpTo(Invert(b), Opponent(j), i, t)
  {
    var f: Pos -> seq<Board> := d => Arrivals(b, j, i, d);
    var g: Pos -> seq<Board> := d => Arrivals(Invert(b), Opponent(j), i, d);
    forall d: Pos ensures InvertAll(f(d)) == g(d) {
      ArrivalsInvert(b, j, i, d);
    }
    GatherInvert(f, g, Points(), t);
  }

  lemma {:induction false} FliesUpToInvert(b: Board, j: Player, k: nat)
    requires k <= 24
    ensures InvertAll(FliesUpTo(b, j, k)) == FliesUpTo(Invert(b), Opponent(j), k)
  {
    if k > 0 {
      FliesUpToInvert(b, j, k - 1);
      FlyTargetsUpToInvert(b, j, k - 1, 24);
      InvertAllAppend(FliesUpTo(b, j, k - 1), if b[k - 1] == j then FlyTargetsUpTo(b, j, k - 1, 24) else []);
    }
  }

  /** `mouvementsPossiblesEtape2ou3` commutes with inversion, including the choice between
      sliding and flying. */
  lemma Moves2or3Invert(b: Board, j: Player)
    ensures InvertAll(Moves2or3(b, j)) == Moves2or3(Invert(b), Opponent(j))
  {
    CountInvert(b, j);
    SwapPlayer(j);
    SlidesUpToInvert(b, j, 24);
    FliesUpToInvert(b, j, 24);
  }

  /** The successors `minimax` generates for the side to move: placements of `j` in the placing
      phase, slides or flights of `j` afterwards. */
  function Gen(b: Board, j: Player, phase1: bool): seq<Board>
  {
    if phase1 then Placements(b, j) else Moves2or3(b, j)
  }

  /** The minimising branch of `minimax` inverts the board, generates the moves of '1' and inverts
      them back; this is exactly the direct generation of the moves of '2'. */
  lemma MinBranchGeneration(b: Board, phase1: bool)
    ensures InvertAll(Gen(Invert(b), P1, phase1)) == Gen(b, P2, phase1)
  {
    InvertInvolution(b);
    PlacementsInvert(Invert(b), P1);
    Moves2or3Invert(Invert(b), P1);
  }
}
