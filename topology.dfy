/** The fixed board graph: the adjacency table (`positionsAdjacentes`) and the
    mill table hard-coded in `prochainMoulin`, with the mill tests built on them. */
module Topology {
  import opened Boards

  /** Neighbours of each point, in the order the original table lists them. */
  const AdjTable: seq<seq<Pos>> :=
    [[1, 3], [0, 2, 9], [1, 4], [0, 5, 11], [2, 7, 12], [3, 6], [5, 7, 14], [4, 6], [9, 11],
     [1, 8, 10, 17], [9, 12], [3, 8, 13, 19], [4, 10, 15, 20], [11, 14], [6, 13, 15, 22], [12, 14],
     [17, 19], [9, 16, 18], [17, 20], [11, 16, 21], [12, 18, 23], [19, 22], [21, 23, 14], [20, 22]]

  /** `positionsAdjacentes(position)`. */
  function Adj(p: Pos): seq<Pos>
  {
    AdjTable[p]
  }

  /** For each point, the two pairs of companions that complete a line through it. */
  const MillTable: seq<((Pos, Pos), (Pos, Pos))> :=
    [((1, 2), (3, 5)), ((0, 2), (9, 17)), ((0, 1), (4, 7)), ((0, 5), (11, 19)),
     ((2, 7), (12, 20)), ((0, 3), (6, 7)), ((5, 7), (14, 22)), ((2, 4), (5, 6)),
     ((9, 10), (11, 13)), ((8, 10), (1, 17)), ((8, 9), (12, 15)), ((3, 19), (8, 13)),
     ((20, 4), (10, 15)), ((8, 11), (14, 15)), ((13, 15), (6, 22)), ((13, 14), (10, 12)),
     ((17, 18), (19, 21)), ((1, 9), (16, 18)), ((16, 17), (20, 23)), ((16, 21), (3, 11)),
     ((12, 4), (18, 23)), ((16, 19), (22, 23)), ((6, 14), (21, 23)), ((18, 20), (21, 22))]

  /** The sixteen three-point lines of the board. */
  const Lines: seq<(Pos, Pos, Pos)> :=
    [(0, 1, 2), (2, 4, 7), (5, 6, 7), (0, 3, 5),
     (8, 9, 10), (10, 12, 15), (13, 14, 15), (8, 11, 13),
     (16, 17, 18), (18, 20, 23), (21, 22, 23), (16, 19, 21),
     (1, 9, 17), (3, 11, 19), (4, 12, 20), (6, 14, 22)]

  /** For each point, the indexes in `Lines` of the lines that its two companion pairs complete. */
  const LinesThrough: seq<(int, int)> :=
    [(0, 3), (0, 12), (0, 1), (3, 13), (1, 14), (3, 2), (2, 15), (1, 2),
     (4, 7), (4, 12), (4, 5), (13, 7), (14, 5), (7, 6), (6, 15), (6, 5),
     (8, 11), (12, 8), (8, 9), (11, 13), (14, 9), (11, 10), (15, 10), (9, 10)]

  /** `estSur2Positions`: both given points hold `j`. */
  predicate OnBoth(j: Cell, b: Board, p1: Pos, p2: Pos)
  {
    b[p1] == j && b[p2] == j
  }

  /** `prochainMoulin`: placing `j` on `p` would complete one of the two lines through `p`. */
  predicate NextMill(p: Pos, b: Board, j: Player)
  {
    var (first, second) := MillTable[p];
    OnBoth(j, b, first.0, first.1) || OnBoth(j, b, second.0, second.1)
  }

  /** `moulinCree`: the piece on `p` is part of a closed mill; false on an empty point. */
  predicate ClosedMill(p: Pos, b: Board)
  {
    if b[p] == Empty then false else NextMill(p, b, b[p])
  }

  /** `p` is one of the three points of line `l`. */
  predicate OnLine(l: (Pos, Pos, Pos), p: Pos)
  {
    l.0 == p || l.1 == p || l.2 == p
  }

  /** The points of `l` other than `p` hold `j`. */
  predicate CompletedBy(l: (Pos, Pos, Pos), p: Pos, b: Board, j: Cell)
  {
    OnLine(l, p) && (l.0 == p || b[l.0] == j) && (l.1 == p || b[l.1] == j) && (l.2 == p || b[l.2] == j)
  }

  /** The pair `(x, y)` is `{u, v}` in either order. */
  predicate SamePair(x: Pos, y: Pos, u: Pos, v: Pos)
  {
    (x == u && y == v) || (x == v && y == u)
  }

  /** Point `p` lists the pair `{u, v}` among its two companion pairs. */
  predicate Lists(p: Pos, u: Pos, v: Pos)
  {
    SamePair(MillTable[p].0.0, MillTable[p].0.1, u, v) || SamePair(MillTable[p].1.0, MillTable[p].1.1, u, v)
  }

  const AllPos: set<int> := {0, 1, 2, 3, 4, 5, 6, 7, 8, 9, 10, 11, 12, 13, 14, 15, 16, 17, 18, 19, 20, 21, 22, 23}

  lemma AdjacencyShape()
    ensures |AdjTable| == 24
    ensures forall p: Pos :: 2 <= |Adj(p)| <= 4 && p !in Adj(p)
  {
    forall p: Pos ensures 2 <= |Adj(p)| <= 4 && p !in Adj(p) {
      assert p in AllPos;
    }
  }

  lemma AdjacencySymmetric()
    ensures forall p: Pos, q: Pos :: q in Adj(p) <==> p in Adj(q)
  {
    forall p: Pos, q: Pos ensures q in Adj(p) ==> p in Adj(q) {
      assert p in AllPos;
    }
  }

  /** Each point's two companion pairs are four distinct points other than itself. */
  lemma MillTableShape()
    ensures |MillTable| == 24
    ensures forall p: Pos ::
      var (f, g) := MillTable[p];
      p != f.0 && p != f.1 && p != g.0 && p != g.1 && f.0 != f.1 && g.0 != g.1 &&
      f.0 != g.0 && f.0 != g.1 && f.1 != g.0 && f.1 != g.1
  {
    forall p: Pos ensures
      var (f, g) := MillTable[p];
      p != f.0 && p != f.1 && p != g.0 && p != g.1 && f.0 != f.1 && g.0 != g.1 &&
      f.0 != g.0 && f.0 != g.1 && f.1 != g.0 && f.1 != g.1
    {
      assert p in AllPos;
    }
  }

  /** The mill table is consistent: whenever `p` lists the pair `(a, b)`, `a` lists `{p, b}` and
      `b` lists `{p, a}`. */
  lemma MillTableSymmetric()
    ensures forall p: Pos ::
      var (f, g) := MillTable[p];
      Lists(f.0, p, f.1) && Lists(f.1, p, f.0) && Lists(g.0, p, g.1) && Lists(g.1, p, g.0)
  {
    forall p: Pos ensures
      var (f, g) := MillTable[p];
      Lists(f.0, p, f.1) && Lists(f.1, p, f.0) && Lists(g.0, p, g.1) && Lists(g.1, p, g.0)
    {
      assert p in AllPos;
    }
  }

  /** `Lines` holds sixteen distinct lines, each written in increasing order, each a path of two
      adjacent steps on the board graph (its ends are not adjacent to each other). */
  lemma LinesShape()
    ensures |Lines| == 16
    ensures forall k :: 0 <= k < |Lines| ==> Lines[k].0 < Lines[k].1 < Lines[k].2
    ensures forall k, m :: 0 <= k < m < |Lines| ==> Lines[k] != Lines[m]
    ensures forall k :: 0 <= k < |Lines| ==>
      Lines[k].1 in Adj(Lines[k].0) && Lines[k].2 in Adj(Lines[k].1) && Lines[k].2 !in Adj(Lines[k].0)
  {
    LinesDistinct();
    forall k | 0 <= k < |Lines|
      ensures Lines[k].0 < Lines[k].1 < Lines[k].2
      ensures Lines[k].1 in Adj(Lines[k].0) && Lines[k].2 in Adj(Lines[k].1) && Lines[k].2 !in Adj(Lines[k].0)
    {
      assert k in {0, 1, 2, 3, 4, 5, 6, 7, 8, 9, 10, 11, 12, 13, 14, 15};
    }
  }

  /** No line is listed twice: the middle points and first points of two lines never both agree. */
  lemma LinesDistinct()
    ensures forall k, m :: 0 <= k < m < |Lines| ==> Lines[k] != Lines[m]
  {
  }

  /** The two companion pairs of `p` complete the two lines of `Lines` named by `LinesThrough[p]`. */
  predicate PairsOnLines(p: Pos)
    requires |LinesThrough| == 24
  {
    var k1 := LinesThrough[p].0;
    var k2 := LinesThrough[p].1;
    && 0 <= k1 < |Lines| && 0 <= k2 < |Lines| && k1 != k2
    && OnLine(Lines[k1], p) && OnLine(Lines[k1], MillTable[p].0.0) && OnLine(Lines[k1], MillTable[p].0.1)
    && OnLine(Lines[k2], p) && OnLine(Lines[k2], MillTable[p].1.0) && OnLine(Lines[k2], MillTable[p].1.1)
  }

  /** The table's companion pairs are lines of `Lines`: each point's two pairs complete two
      different lines through it. */
  lemma MillTableIsLines()
    ensures |LinesThrough| == 24
    ensures forall p: Pos :: PairsOnLines(p)
  {
    PairsOnLinesFrom(0, 8);
    PairsOnLinesFrom(8, 16);
    PairsOnLinesFrom(16, 24);
  }

  /** The eight points from `lo` below `hi` pass `PairsOnLines`. */
  lemma PairsOnLinesFrom(lo: int, hi: int)
    requires (lo == 0 && hi == 8) || (lo == 8 && hi == 16) || (lo == 16 && hi == 24)
    ensures |LinesThrough| == 24
    ensures forall p: Pos :: lo <= p < hi ==> PairsOnLines(p)
  {
    forall p: Pos | lo <= p < hi ensures PairsOnLines(p) {
      assert p in {lo, lo + 1, lo + 2, lo + 3, lo + 4, lo + 5, lo + 6, lo + 7};
    }
  }

  /** No other line passes through a point: every point lies on exactly two of the sixteen lines. */
  lemma TwoLinesThroughEachPoint()
    ensures |LinesThrough| == 24
    ensures forall p: Pos, k :: 0 <= k < |Lines| && OnLine(Lines[k], p) ==>
      k == LinesThrough[p].0 || k == LinesThrough[p].1
  {
    forall p: Pos, k | 0 <= k < |Lines| && OnLine(Lines[k], p)
      ensures k == LinesThrough[p].0 || k == LinesThrough[p].1
    {
      assert p in AllPos;
    }
  }

  /** `prochainMoulin` does not look at the point it is asked about. */
  lemma NextMillIgnoresOwnCell(p: Pos, b: Board, c: Cell, j: Player)
    ensures NextMill(p, b[p := c], j) == NextMill(p, b, j)
  {
    MillTableShape();
  }

  /** `prochainMoulin(p, b, j)` holds exactly when some line of the board through `p` has its
      two other points held by `j`. */
  lemma NextMillMeansLine(p: Pos, b: Board, j: Player)
    ensures NextMill(p, b, j) <==> exists k :: 0 <= k < |Lines| && CompletedBy(Lines[k], p, b, j)
  {
    MillTableShape();
    MillTableIsLines();
    TwoLinesThroughEachPoint();
    LinesShape();
    var (f, g) := MillTable[p];
    var (k1, k2) := LinesThrough[p];
    assert PairsOnLines(p);
    if OnBoth(j, b, f.0, f.1) {
      assert CompletedBy(Lines[k1], p, b, j);
    } else if OnBoth(j, b, g.0, g.1) {
      assert CompletedBy(Lines[k2], p, b, j);
    }
    if k :| 0 <= k < |Lines| && CompletedBy(Lines[k], p, b, j) {
      assert k == k1 || k == k2;
    }
  }

  /** `moulinCree(p, b)` is false on an empty point and otherwise asks `prochainMoulin` for the
      owner of `p`; a piece is in a closed mill exactly when a whole line through it is its own. */
  lemma ClosedMillMeansLine(p: Pos, b: Board)
    ensures b[p] == Empty ==> !ClosedMill(p, b)
    ensures b[p] != Empty ==>
      (ClosedMill(p, b) <==>
         exists k :: 0 <= k < |Lines| && OnLine(Lines[k], p) &&
                     b[Lines[k].0] == b[p] && b[Lines[k].1] == b[p] && b[Lines[k].2] == b[p])
  {
    if b[p] != Empty {
      NextMillMeansLine(p, b, b[p]);
    }
  }
}
