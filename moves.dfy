/** Move generation of `src/ia/utils.py`: capture branching (`retirerPiece`), placement
    (`mouvementsPossiblesEtape1`), sliding (`...Etape2`), flying (`...Etape3`) and the dispatch
    between the last two (`...Etape2ou3`). Every generator returns fresh boards and leaves its
    input untouched, which Dafny's value semantics gives for free. */
module Moves {
  import opened Boards
  import opened Topology
  import opened Mills

  /** Concatenation of board lists is associative. */
  lemma AppendAssoc(x: seq<Board>, y: seq<Board>, z: seq<Board>)
    ensures (x + y) + z == x + (y + z)
  {
  }

  // ---------------------------------------------------------------- retirerPiece

  /** `retirerPiece`'s test: `r` holds a piece of `j`'s opponent that is not in a closed mill.
      There is no exception for an opponent whose pieces are all in mills. */
  predicate Removable(c: Board, j: Player, r: Pos)
  {
    c[r] == Opponent(j) && !ClosedMill(r, c)
  }

  /** The boards `retirerPiece` appends after scanning the first `k` points. */
  function RemovalsUpTo(c: Board, j: Player, k: nat): seq<Board>
    requires k <= 24
  {
    if k == 0 then []
    else RemovalsUpTo(c, j, k - 1) + (if Removable(c, j, k - 1) then [c[k - 1 := Empty]] else [])
  }

  /** All boards `retirerPiece` appends: one per removable opponent piece, in increasing order. */
  function Removals(c: Board, j: Player): seq<Board>
  {
    RemovalsUpTo(c, j, |c|)
  }

  /** `retirerPiece(copiePlateau, listePlateau, joueur1)`: appends to the caller's list. */
  method RemovePiece(c: Board, list: seq<Board>, j: Player) returns (out: seq<Board>)
    ensures out == list + Removals(c, j)
  {
    var opponent := if j == P1 then P2 else P1;
    out := list;
    for i := 0 to 24
      invariant out == list + RemovalsUpTo(c, j, i)
    {
      if c[i] == opponent {
        if !ClosedMill(i, c) {
          var newBoard := c[i := Empty];
          out := out + [newBoard];
        }
      }
    }
  }

  /** `s` is `c` with one removable opponent piece taken. */
  ghost predicate CaptureOf(c: Board, j: Player, s: Board)
  {
    exists r: Pos :: Removable(c, j, r) && s == c[r := Empty]
  }

  lemma {:induction false} RemovalsUpToMembers(c: Board, j: Player, k: nat, s: Board)
    requires k <= 24
    ensures s in RemovalsUpTo(c, j, k) <==> exists r: Pos :: r < k && Removable(c, j, r) && s == c[r := Empty]
  {
    if k > 0 {
      RemovalsUpToMembers(c, j, k - 1, s);
      if exists r: Pos :: r < k && Removable(c, j, r) && s == c[r := Empty] {
        var r: Pos :| r < k && Removable(c, j, r) && s == c[r := Empty];
        if r == k - 1 {
          assert s in RemovalsUpTo(c, j, k);
        }
      }
    }
  }

  /** The appended boards are exactly the input with one removable opponent piece taken. */
  lemma RemovalsMembers(c: Board, j: Player, s: Board)
    ensures s in Removals(c, j) <==> CaptureOf(c, j, s)
  {
    RemovalsUpToMembers(c, j, 24, s);
  }

  /** The point cleared by a board of the first `k` lies below `k`. */
  lemma {:induction false} RemovalsUpToCleared(c: Board, j: Player, k: nat)
    requires k <= 24
    ensures forall x, r: Pos :: 0 <= x < |RemovalsUpTo(c, j, k)| && RemovalsUpTo(c, j, k)[x][r] != c[r] ==> r < k
  {
    if k > 0 {
      RemovalsUpToCleared(c, j, k - 1);
    }
  }

  /** `retirerPiece` appends in increasing order of the removed point: the point cleared by an
      earlier board comes before the point cleared by a later one. */
  lemma {:induction false} RemovalsUpToOrdered(c: Board, j: Player, k: nat)
    requires k <= 24
    ensures forall x, y, r1: Pos, r2: Pos ::
      (0 <= x < y < |RemovalsUpTo(c, j, k)| &&
       RemovalsUpTo(c, j, k)[x][r1] != c[r1] && RemovalsUpTo(c, j, k)[y][r2] != c[r2]) ==> r1 < r2
  {
    if k > 0 {
      RemovalsUpToOrdered(c, j, k - 1);
      RemovalsUpToCleared(c, j, k - 1);
      var prev := RemovalsUpTo(c, j, k - 1);
      var all := RemovalsUpTo(c, j, k);
      forall x, y, r1: Pos, r2: Pos | 0 <= x < y < |all| && all[x][r1] != c[r1] && all[y][r2] != c[r2]
        ensures r1 < r2
      {
        if y < |prev| {
          assert all[x] == prev[x] && all[y] == prev[y];
        } else {
          assert all[x] == prev[x];
          assert all[y] == c[k - 1 := Empty];
        }
      }
    }
  }

  /** Each appended board differs from the input in exactly one point, emptied; the removed
      points increase along the list. */
  lemma RemovalsShape(c: Board, j: Player)
    ensures forall x :: 0 <= x < |Removals(c, j)| ==> CaptureOf(c, j, Removals(c, j)[x])
    ensures forall x, y, r1: Pos, r2: Pos ::
      (0 <= x < y < |Removals(c, j)| &&
       Removals(c, j)[x][r1] != c[r1] && Removals(c, j)[y][r2] != c[r2]) ==> r1 < r2
  {
    forall x | 0 <= x < |Removals(c, j)| ensures CaptureOf(c, j, Removals(c, j)[x]) {
      RemovalsMembers(c, j, Removals(c, j)[x]);
    }
    RemovalsUpToOrdered(c, j, 24);
  }

  /** `retirerPiece` appends nothing exactly when every opponent piece is in a closed mill. */
  lemma RemovalsEmpty(c: Board, j: Player)
    ensures Removals(c, j) == [] <==> forall r: Pos :: c[r] == Opponent(j) ==> ClosedMill(r, c)
  {
    if Removals(c, j) == [] {
      forall r: Pos | c[r] == Opponent(j) ensures ClosedMill(r, c) {
        RemovalsMembers(c, j, c[r := Empty]);
        if !ClosedMill(r, c) {
          assert Removable(c, j, r);
          assert CaptureOf(c, j, c[r := Empty]);
        }
      }
    } else {
      RemovalsMembers(c, j, Removals(c, j)[0]);
    }
  }

  // ---------------------------------------------------------------- one move and its captures

  /** What one move expands into, `c` being the board just after the mover's piece arrived on
      `dest`: the board itself, or, when it closes a mill there, one board per capture
      (possibly none at all). */
  function Expand(c: Board, dest: Pos, j: Player): seq<Board>
  {
    if ClosedMill(dest, c) then Removals(c, j) else [c]
  }

  /** The boards `Expand` may produce. */
  ghost predicate ExpandsTo(c: Board, dest: Pos, j: Player, s: Board)
  {
    if ClosedMill(dest, c) then CaptureOf(c, j, s) else s == c
  }

  lemma ExpandMembers(c: Board, dest: Pos, j: Player, s: Board)
    ensures s in Expand(c, dest, j) <==> ExpandsTo(c, dest, j, s)
  {
    RemovalsMembers(c, j, s);
  }

  /** A move that closes a mill while every opponent piece is protected produces no successor. */
  lemma ExpandNoCapture(c: Board, dest: Pos, j: Player)
    requires ClosedMill(dest, c)
    requires forall r: Pos :: c[r] == Opponent(j) ==> ClosedMill(r, c)
    ensures Expand(c, dest, j) == []
  {
    RemovalsEmpty(c, j);
  }

  /** Changing a cell that neither was nor becomes `j` does not change `j`'s mills. */
  lemma NextMillOtherWrite(p: Pos, c: Board, r: Pos, v: Cell, j: Player)
    requires c[r] != j && v != j
    ensures NextMill(p, c[r := v], j) == NextMill(p, c, j)
  {
    var (f, g) := MillTable[p];
    assert c[r := v][f.0] == j <==> c[f.0] == j;
    assert c[r := v][f.1] == j <==> c[f.1] == j;
    assert c[r := v][g.0] == j <==> c[g.0] == j;
    assert c[r := v][g.1] == j <==> c[g.1] == j;
  }

  /** The shape of an expanded move: `j` keeps its pieces, the opponent loses one exactly when
      the move closed a mill, and at most one point other than those of `c` changes. */
  lemma ExpandShape(c: Board, dest: Pos, j: Player, s: Board)
    requires c[dest] == j
    requires ExpandsTo(c, dest, j, s)
    ensures s[dest] == j
    ensures Count(s, j) == Count(c, j)
    ensures Count(s, Opponent(j)) == Count(c, Opponent(j)) - (if ClosedMill(dest, c) then 1 else 0)
    ensures ClosedMill(dest, s) == ClosedMill(dest, c)
    ensures forall k: Pos :: s[k] != c[k] ==> c[k] == Opponent(j) && s[k] == Empty
    ensures forall k: Pos, m: Pos :: s[k] != c[k] && s[m] != c[m] ==> k == m
  {
    if ClosedMill(dest, c) {
      var r: Pos :| Removable(c, j, r) && s == c[r := Empty];
      CountUpdate(c, r, Empty, j);
      CountUpdate(c, r, Empty, Opponent(j));
      NextMillOtherWrite(dest, c, r, Empty, j);
    }
  }

  // ---------------------------------------------------------------- mouvementsPossiblesEtape1

  /** Successors of placing `j` on the first `k` points, in increasing order of the point. */
  function PlacementsUpTo(b: Board, j: Player, k: nat): seq<Board>
    requires k <= 24
  {
    if k == 0 then []
    else PlacementsUpTo(b, j, k - 1) + (if b[k - 1] == Empty then Expand(b[k - 1 := j], k - 1, j) else [])
  }

  /** All placements of `j`; the original program only ever generates those of '1'. */
  function Placements(b: Board, j: Player): seq<Board>
  {
    PlacementsUpTo(b, j, |b|)
  }

  /** `mouvementsPossiblesEtape1(plateau)` as the loop of the original program. */
  method PlacementMoves(b: Board) returns (list: seq<Board>)
    ensures list == Placements(b, P1)
  {
    list := [];
    for i := 0 to 24
      invariant list == PlacementsUpTo(b, P1, i)
    {
      if b[i] == Empty {
        var copy := b[i := P1];
        if ClosedMill(i, copy) {
          list := RemovePiece(copy, list, P1);
        } else {
          list := list + [copy];
        }
      }
    }
  }

  lemma {:induction false} PlacementsUpToMembers(b: Board, j: Player, k: nat, s: Board)
    requires k <= 24
    ensures s in PlacementsUpTo(b, j, k) <==>
      exists i: Pos :: i < k && b[i] == Empty && ExpandsTo(b[i := j], i, j, s)
  {
    if k > 0 {
      PlacementsUpToMembers(b, j, k - 1, s);
      ExpandMembers(b[k - 1 := j], k - 1, j, s);
      if exists i: Pos :: i < k && b[i] == Empty && ExpandsTo(b[i := j], i, j, s) {
        var i: Pos :| i < k && b[i] == Empty && ExpandsTo(b[i := j], i, j, s);
        if i == k - 1 {
          assert s in PlacementsUpTo(b, j, k);
        }
      }
    }
  }

  /** The placement successors are exactly: put `j` on an empty point, then, if that closes a
      mill, take one removable opponent piece. */
  lemma PlacementMembers(b: Board, j: Player, s: Board)
    ensures s in Placements(b, j) <==> exists i: Pos :: b[i] == Empty && ExpandsTo(b[i := j], i, j, s)
  {
    PlacementsUpToMembers(b, j, 24, s);
  }

  /** Every placement successor has exactly one formerly empty point now holding `j`, one more
      piece of `j`, and the same number of opponent pieces or one fewer, one fewer exactly when
      the placed piece closed a mill. */
  lemma PlacementShape(b: Board, j: Player, s: Board)
    requires s in Placements(b, j)
    ensures exists i: Pos ::
      && b[i] == Empty && s[i] == j
      && (forall k: Pos :: k != i && s[k] != b[k] ==> b[k] == Opponent(j) && s[k] == Empty)
      && Count(s, Opponent(j)) == Count(b, Opponent(j)) - (if ClosedMill(i, s) then 1 else 0)
    ensures Count(s, j) == Count(b, j) + 1
    ensures Count(s, Opponent(j)) == Count(b, Opponent(j)) || Count(s, Opponent(j)) == Count(b, Opponent(j)) - 1
  {
    PlacementMembers(b, j, s);
    var i: Pos :| b[i] == Empty && ExpandsTo(b[i := j], i, j, s);
    ExpandShape(b[i := j], i, j, s);
    CountUpdate(b, i, j, j);
    CountUpdate(b, i, j, Opponent(j));
  }

  // ---------------------------------------------------------------- moving a piece

  /** The board after the piece of `j` on `i` moves to `d`, before any capture. */
  function Move(b: Board, i: Pos, d: Pos, j: Player): Board
  {
    b[i := Empty][d := j]
  }

  /** The successors of moving the piece of `j` on `i` to `d`: none when `d` is occupied,
      otherwise the moved board, or its captures when the move closes a mill. */
  function Arrivals(b: Board, j: Player, i: Pos, d: Pos): seq<Board>
  {
    if b[d] == Empty then Expand(Move(b, i, d, j), d, j) else []
  }

  /** The successor lists `f(ns[0]) + ... + f(ns[t - 1])`, in order: the shape of the inner
      loops of the move generators, which append the successors of each target in turn. */
  function Gather(f: Pos -> seq<Board>, ns: seq<Pos>, t: nat): seq<Board>
    requires t <= |ns|
  {
    if t == 0 then [] else Gather(f, ns, t - 1) + f(ns[t - 1])
  }

  /** A board is gathered exactly when one of the first `t` targets contributes it. */
  lemma {:induction false} GatherMembers(f: Pos -> seq<Board>, ns: seq<Pos>, t: nat, s: Board)
    requires t <= |ns|
    ensures s in Gather(f, ns, t) <==> exists u :: 0 <= u < t && s in f(ns[u])
  {
    if t > 0 {
      GatherMembers(f, ns, t - 1, s);
      if s in f(ns[t - 1]) {
        assert 0 <= t - 1 < t && s in f(ns[t - 1]);
      }
      if exists u :: 0 <= u < t && s in f(ns[u]) {
        var u :| 0 <= u < t && s in f(ns[u]);
        if u < t - 1 {
          assert s in Gather(f, ns, t - 1);
        }
      }
    }
  }

  /** Gathering commutes with any list map that commutes with every contribution. */
  lemma {:induction false} GatherInvert(f: Pos -> seq<Board>, g: Pos -> seq<Board>, ns: seq<Pos>, t: nat)
    requires t <= |ns|
    requires forall d :: InvertAll(f(d)) == g(d)
    ensures InvertAll(Gather(f, ns, t)) == Gather(g, ns, t)
  {
    if t > 0 {
      GatherInvert(f, g, ns, t - 1);
      InvertAllAppend(Gather(f, ns, t - 1), f(ns[t - 1]));
    }
  }

  /** Shape of a slide or a fly with its capture: the source is emptied, the destination holds
      `j`, `j` keeps its piece count, the opponent loses one piece exactly when the move closed a
      mill, and no other point changes except at most one opponent piece taken. */
  lemma MoveShape(b: Board, j: Player, i: Pos, d: Pos, s: Board)
    requires b[i] == j && b[d] == Empty
    requires MoveTo(b, j, i, d, s)
    ensures s[i] == Empty && s[d] == j
    ensures Count(s, j) == Count(b, j)
    ensures Count(s, Opponent(j)) == Count(b, Opponent(j)) - (if ClosedMill(d, s) then 1 else 0)
    ensures forall k: Pos :: k != i && k != d && s[k] != b[k] ==> b[k] == Opponent(j) && s[k] == Empty
    ensures forall k: Pos, m: Pos :: k != i && k != d && m != i && m != d && s[k] != b[k] && s[m] != b[m] ==> k == m
  {
    var c := Move(b, i, d, j);
    MoveToMeans(b, j, i, d, s);
    ExpandShape(c, d, j, s);
    CountUpdate(b, i, Empty, j);
    CountUpdate(b[i := Empty], d, j, j);
    CountUpdate(b, i, Empty, Opponent(j));
    CountUpdate(b[i := Empty], d, j, Opponent(j));
  }

  // ---------------------------------------------------------------- mouvementsPossiblesEtape2

  /** Slides of the piece on `i` towards the first `t` points of `ns`, in list order; the
      original program walks `ns = positionsAdjacentes(i)`. */
  function SlideTargetsUpTo(b: Board, j: Player, i: Pos, ns: seq<Pos>, t: nat): seq<Board>
    requires t <= |ns|
  {
    Gather(d => Arrivals(b, j, i, d), ns, t)
  }

  /** Slides of the pieces of `j` on the first `k` points. */
  function SlidesUpTo(b: Board, j: Player, k: nat): seq<Board>
    requires k <= 24
  {
    if k == 0 then []
    else SlidesUpTo(b, j, k - 1) + (if b[k - 1] == j then SlideTargetsUpTo(b, j, k - 1, Adj(k - 1), |Adj(k - 1)|) else [])
  }

  /** `mouvementsPossiblesEtape2(plateau, joueur)`. */
  function Slides(b: Board, j: Player): seq<Board>
  {
    SlidesUpTo(b, j, |b|)
  }

  /** `mouvementsPossiblesEtape2` as the nested loops of the original program. */
  method SlideMoves(b: Board, j: Player) returns (list: seq<Board>)
    ensures list == Slides(b, j)
  {
    list := [];
    for i := 0 to 24
      invariant list == SlidesUpTo(b, j, i)
    {
      if b[i] == j {
        list := SlidePiece(b, j, i, Adj(i), list);
      }
    }
  }

  /** The inner loop of `mouvementsPossiblesEtape2`: the piece on `i` tries each point of `ns`
      (its neighbours) in turn and appends the successors of every slide to an empty one. */
  method SlidePiece(b: Board, j: Player, i: Pos, ns: seq<Pos>, list: seq<Board>) returns (out: seq<Board>)
    ensures out == list + SlideTargetsUpTo(b, j, i, ns, |ns|)
  {
    out := list;
    for t := 0 to |ns|
      invariant out == list + SlideTargetsUpTo(b, j, i, ns, t)
    {
      var pos := ns[t];
      ghost var before := out;
      ghost var step := Arrivals(b, j, i, pos);
      if b[pos] == Empty {
        var copy := b[i := Empty];
        copy := copy[pos := j];
        if ClosedMill(pos, copy) {
          out := RemovePiece(copy, out, j);
        } else {
          out := out + [copy];
        }
      }
      assert out == before + step;
      SlideTargetsStep(b, j, i, ns, t);
      AppendAssoc(list, SlideTargetsUpTo(b, j, i, ns, t), step);
    }
  }

  /** One more neighbour appends the successors of the slide towards it. */
  lemma SlideTargetsStep(b: Board, j: Player, i: Pos, ns: seq<Pos>, t: nat)
    requires t < |ns|
    ensures SlideTargetsUpTo(b, j, i, ns, t + 1) ==
      SlideTargetsUpTo(b, j, i, ns, t) + Arrivals(b, j, i, ns[t])
  {
  }

  /** Moving the piece on `i` to the empty point `d`, with its capture if any, gives `s`. */
  predicate MoveTo(b: Board, j: Player, i: Pos, d: Pos, s: Board)
  {
    s in Arrivals(b, j, i, d)
  }

  /** The successors one destination contributes are exactly those of the move towards it. */
  lemma MoveToMeans(b: Board, j: Player, i: Pos, d: Pos, s: Board)
    ensures MoveTo(b, j, i, d, s) <==> b[d] == Empty && ExpandsTo(Move(b, i, d, j), d, j, s)
  {
    ExpandMembers(Move(b, i, d, j), d, j, s);
  }

  lemma SlideTargetsMembers(b: Board, j: Player, i: Pos, ns: seq<Pos>, t: nat, s: Board)
    requires t <= |ns|
    ensures s in SlideTargetsUpTo(b, j, i, ns, t) <==> exists u :: 0 <= u < t && MoveTo(b, j, i, ns[u], s)
  {
    GatherMembers(d => Arrivals(b, j, i, d), ns, t, s);
  }

  /** A slide of `j` from `i` to an adjacent empty `d`, with its capture if any, gives `s`. */
  ghost predicate SlideOf(b: Board, j: Player, s: Board, i: Pos, d: Pos)
  {
    b[i] == j && d in Adj(i) && MoveTo(b, j, i, d, s)
  }

  lemma {:induction false} SlidesUpToMembers(b: Board, j: Player, k: nat, s: Board)
    requires k <= 24
    ensures s in SlidesUpTo(b, j, k) <==> exists i: Pos, d: Pos :: i < k && SlideOf(b, j, s, i, d)
  {
    if k > 0 {
      SlidesUpToMembers(b, j, k - 1, s);
      var i: Pos := k - 1;
      var ns := Adj(i);
      SlideTargetsMembers(b, j, i, ns, |ns|, s);
      if s in SlidesUpTo(b, j, k) && s !in SlidesUpTo(b, j, k - 1) {
        var u :| 0 <= u < |ns| && MoveTo(b, j, i, ns[u], s);
        assert SlideOf(b, j, s, i, ns[u]);
      }
      if exists i': Pos, d: Pos :: i' < k && SlideOf(b, j, s, i', d) {
        var i': Pos, d: Pos :| i' < k && SlideOf(b, j, s, i', d);
        if i' == i {
          var u :| 0 <= u < |ns| && ns[u] == d;
          assert s in SlideTargetsUpTo(b, j, i, ns, |ns|);
        }
      }
    }
  }

  /** The slide successors are exactly: move a piece of `j` to an adjacent empty point, then, if
      that closes a mill, take one removable opponent piece. */
  lemma SlideMembers(b: Board, j: Player, s: Board)
    ensures s in Slides(b, j) <==> exists i: Pos, d: Pos :: SlideOf(b, j, s, i, d)
  {
    SlidesUpToMembers(b, j, 24, s);
  }

  // ---------------------------------------------------------------- mouvementsPossiblesEtape3

  /** The 24 points in increasing order. */
  function Points(): (r: seq<Pos>)
    ensures |r| == 24 && forall k :: 0 <= k < 24 ==> r[k] == k
  {
    seq(24, k requires 0 <= k < 24 => k)
  }

  /** Flights of the piece on `i` to the empty points among the first `t`. */
  function FlyTargetsUpTo(b: Board, j: Player, i: Pos, t: nat): seq<Board>
    requires t <= 24
  {
    Gather(d => Arrivals(b, j, i, d), Points(), t)
  }

  /** Flights of the pieces of `j` on the first `k` points. */
  function FliesUpTo(b: Board, j: Player, k: nat): seq<Board>
    requires k <= 24
  {
    if k == 0 then []
    else FliesUpTo(b, j, k - 1) + (if b[k - 1] == j then FlyTargetsUpTo(b, j, k - 1, |b|) else [])
  }

  /** `mouvementsPossiblesEtape3(plateau, joueur)`. */
  function Flies(b: Board, j: Player): seq<Board>
  {
    FliesUpTo(b, j, |b|)
  }

  /** `mouvementsPossiblesEtape3` as the nested loops of the original program. */
  method FlyMoves(b: Board, j: Player) returns (list: seq<Board>)
    ensures list == Flies(b, j)
  {
    list := [];
    for i := 0 to 24
      invariant list == FliesUpTo(b, j, i)
    {
      if b[i] == j {
        for t := 0 to 24
          invariant list == FliesUpTo(b, j, i) + FlyTargetsUpTo(b, j, i, t)
        {
          ghost var before := list;
          ghost var step := Arrivals(b, j, i, t);
          if b[t] == Empty {
            var copy := b[i := Empty];
            copy := copy[t := j];
            if ClosedMill(t, copy) {
              list := RemovePiece(copy, list, j);
            } else {
              list := list + [copy];
            }
          }
          assert list == before + step;
          assert Points()[t] == t;
          assert FlyTargetsUpTo(b, j, i, t + 1) == FlyTargetsUpTo(b, j, i, t) + step;
          AppendAssoc(FliesUpTo(b, j, i), FlyTargetsUpTo(b, j, i, t), step);
        }
      }
    }
  }

  /** A flight of `j` from `i` to any empty `d`, with its capture if any, gives `s`. */
  ghost predicate FlyOf(b: Board, j: Player, s: Board, i: Pos, d: Pos)
  {
    b[i] == j && MoveTo(b, j, i, d, s)
  }

  lemma FlyTargetsMembers(b: Board, j: Player, i: Pos, t: nat, s: Board)
    requires t <= 24
    ensures s in FlyTargetsUpTo(b, j, i, t) <==>
      exists d: Pos :: d < t && MoveTo(b, j, i, d, s)
  {
    GatherMembers(d => Arrivals(b, j, i, d), Points(), t, s);
    if exists u :: 0 <= u < t && s in Arrivals(b, j, i, Points()[u]) {
      var u :| 0 <= u < t && s in Arrivals(b, j, i, Points()[u]);
      var d: Pos := u;
      assert Points()[u] == d && MoveTo(b, j, i, d, s);
    }
    if exists d: Pos :: d < t && MoveTo(b, j, i, d, s) {
      var d: Pos :| d < t && MoveTo(b, j, i, d, s);
      assert Points()[d] == d;
    }
  }

  lemma {:induction false} FliesUpToMembers(b: Board, j: Player, k: nat, s: Board)
    requires k <= 24
    ensures s in FliesUpTo(b, j, k) <==> exists i: Pos, d: Pos :: i < k && FlyOf(b, j, s, i, d)
  {
    if k > 0 {
      FliesUpToMembers(b, j, k - 1, s);
      var i: Pos := k - 1;
      FlyTargetsMembers(b, j, i, 24, s);
      if s in FliesUpTo(b, j, k) && s !in FliesUpTo(b, j, k - 1) {
        var d: Pos :| MoveTo(b, j, i, d, s);
        assert FlyOf(b, j, s, i, d);
      }
      if exists i': Pos, d: Pos :: i' < k && FlyOf(b, j, s, i', d) {
        var i': Pos, d: Pos :| i' < k && FlyOf(b, j, s, i', d);
        if i' == i {
          assert s in FlyTargetsUpTo(b, j, i, 24);
        }
      }
    }
  }

  /** The flight successors are exactly: move a piece of `j` to any empty point, then, if that
      closes a mill, take one removable opponent piece. */
  lemma FlyMembers(b: Board, j: Player, s: Board)
    ensures s in Flies(b, j) <==> exists i: Pos, d: Pos :: FlyOf(b, j, s, i, d)
  {
    FliesUpToMembers(b, j, 24, s);
  }

  // ---------------------------------------------------------------- mouvementsPossiblesEtape2ou3

  /** `mouvementsPossiblesEtape2ou3(plateau, joueur)`: flying exactly when `j` has three pieces. */
  function Moves2or3(b: Board, j: Player): seq<Board>
  {
    if Count(b, j) == 3 then Flies(b, j) else Slides(b, j)
  }

  /** `mouvementsPossiblesEtape2ou3` as the dispatch of the original program. */
  method MoveList(b: Board, j: Player) returns (list: seq<Board>)
    ensures list == Moves2or3(b, j)
  {
    if Count(b, j) == 3 {
      list := FlyMoves(b, j);
    } else {
      list := SlideMoves(b, j);
    }
  }

  /** The successor `s` comes from moving the piece of `j` on `i` to the empty point `d`
      (adjacent unless `j` flies), with at most one opponent piece taken, taken exactly when
      the move closed a mill. */
  predicate MovedFrom(b: Board, j: Player, s: Board, i: Pos, d: Pos)
  {
    && b[i] == j && s[i] == Empty && b[d] == Empty && s[d] == j
    && (Count(b, j) != 3 ==> d in Adj(i))
    && (forall k: Pos :: k != i && k != d && s[k] != b[k] ==> b[k] == Opponent(j) && s[k] == Empty)
    && Count(s, Opponent(j)) == Count(b, Opponent(j)) - (if ClosedMill(d, s) then 1 else 0)
  }

  /** Every successor of the moving phases keeps the mover's piece count, empties one of its
      points and fills one formerly empty point, adjacent to the first unless the mover has
      exactly three pieces, and removes at most one opponent piece. */
  lemma MovePhaseShape(b: Board, j: Player, s: Board)
    requires s in Moves2or3(b, j)
    ensures exists i: Pos, d: Pos :: MovedFrom(b, j, s, i, d)
    ensures Count(s, j) == Count(b, j)
    ensures Count(s, Opponent(j)) == Count(b, Opponent(j)) || Count(s, Opponent(j)) == Count(b, Opponent(j)) - 1
  {
    var i: Pos, d: Pos;
    if Count(b, j) == 3 {
      FlyMembers(b, j, s);
      i, d :| FlyOf(b, j, s, i, d);
    } else {
      SlideMembers(b, j, s);
      i, d :| SlideOf(b, j, s, i, d);
    }
    MoveShape(b, j, i, d, s);
    assert MovedFrom(b, j, s, i, d);
  }
}
