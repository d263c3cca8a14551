/**
 * The Othello rules both board implementations follow, as functions on an
 * 8x8 grid value: which cells a move brackets along the eight directions,
 * when a move is legal, what playing it leaves on the board, and how many
 * pieces each side holds. Cells hold 0 (empty), 1 (black) or 2 (white).
 */
module OthelloRules {

  const BOARD_SIZE: int := 8
  const EMPTY: int := 0
  const BLACK: int := 1
  const WHITE: int := 2

  /** Rows of cells, indexed `board[row][col]`. */
  type Board = seq<seq<int>>

  datatype Pos = Pos(row: int, col: int)

  datatype Move = Move(player: int, row: int, col: int)

  /** A step between neighbouring cells. */
  datatype Dir = Dir(dr: int, dc: int)

  type Direction = d: Dir | -1 <= d.dr <= 1 && -1 <= d.dc <= 1 && d != Dir(0, 0) witness Dir(0, 1)

  /** The eight directions, in the order the scans visit them. */
  const DIRECTIONS: seq<Direction> :=
    [Dir(-1, -1), Dir(-1, 0), Dir(-1, 1),
     Dir(0, -1),              Dir(0, 1),
     Dir(1, -1),  Dir(1, 0),  Dir(1, 1)]

  predicate WellFormed(b: Board)
  {
    |b| == BOARD_SIZE && forall r :: 0 <= r < |b| ==> |b[r]| == BOARD_SIZE
  }

  predicate InRange(r: int, c: int)
  {
    0 <= r < BOARD_SIZE && 0 <= c < BOARD_SIZE
  }

  predicate AllInRange(ps: seq<Pos>)
  {
    forall q :: q in ps ==> InRange(q.row, q.col)
  }

  predicate IsPlayer(p: int)
  {
    p == BLACK || p == WHITE
  }

  /** `player === 1 ? 2 : 1`: anything other than black plays against black. */
  function Opponent(p: int): int
  {
    if p == BLACK then WHITE else BLACK
  }

  predicate Distinct<T(==)>(s: seq<T>)
  {
    forall i, j :: 0 <= i < j < |s| ==> s[i] != s[j]
  }

  // ------------------------------------------------------------ scanning

  /** How many steps in direction d stay on the board from (r, c). */
  function Reach(r: int, c: int, d: Direction): int
  {
    (if d.dr > 0 then BOARD_SIZE - r else if d.dr < 0 then r + 1 else 0) +
    (if d.dc > 0 then BOARD_SIZE - c else if d.dc < 0 then c + 1 else 0)
  }

  /** The unbroken run of `opp` cells that starts at (r, c) and steps by d. */
  function Ray(b: Board, r: int, c: int, d: Direction, opp: int): seq<Pos>
    requires WellFormed(b)
    decreases Reach(r, c, d)
  {
    if InRange(r, c) && b[r][c] == opp then [Pos(r, c)] + Ray(b, r + d.dr, c + d.dc, d, opp) else []
  }

  /** The first cell after that run: off the board, or not holding `opp`. */
  function RayEnd(b: Board, r: int, c: int, d: Direction, opp: int): Pos
    requires WellFormed(b)
    decreases Reach(r, c, d)
  {
    if InRange(r, c) && b[r][c] == opp then RayEnd(b, r + d.dr, c + d.dc, d, opp) else Pos(r, c)
  }

  /** The opponent pieces next to (row, col) in direction d. */
  function Line(b: Board, row: int, col: int, p: int, d: Direction): seq<Pos>
    requires WellFormed(b)
  {
    Ray(b, row + d.dr, col + d.dc, d, Opponent(p))
  }

  /** The run of opponent pieces in direction d ends on one of p's own pieces. */
  predicate Closes(b: Board, row: int, col: int, p: int, d: Direction)
    requires WellFormed(b)
  {
    var e := RayEnd(b, row + d.dr, col + d.dc, d, Opponent(p));
    InRange(e.row, e.col) && b[e.row][e.col] == p
  }

  /** At least one opponent piece, then one of p's own, in direction d. */
  predicate Flanks(b: Board, row: int, col: int, p: int, d: Direction)
    requires WellFormed(b)
  {
    |Line(b, row, col, p, d)| > 0 && Closes(b, row, col, p, d)
  }

  /** The pieces a move at (row, col) turns over in direction d. */
  function Captured(b: Board, row: int, col: int, p: int, d: Direction): seq<Pos>
    requires WellFormed(b)
  {
    if Closes(b, row, col, p, d) then Line(b, row, col, p, d) else []
  }

  /** The pieces turned over along the first n directions, in scan order. */
  function Flips(b: Board, row: int, col: int, p: int, n: nat): seq<Pos>
    requires WellFormed(b) && n <= |DIRECTIONS|
  {
    if n == 0 then [] else Flips(b, row, col, p, n - 1) + Captured(b, row, col, p, DIRECTIONS[n - 1])
  }

  /** Every piece a move at (row, col) by p turns over. */
  function FlipSet(b: Board, row: int, col: int, p: int): seq<Pos>
    requires WellFormed(b)
  {
    Flips(b, row, col, p, |DIRECTIONS|)
  }

  /** A legal move: an empty cell on the board that flanks in some direction. */
  predicate ValidMove(b: Board, row: int, col: int, p: int)
    requires WellFormed(b)
  {
    InRange(row, col) && b[row][col] == EMPTY &&
    exists k :: 0 <= k < |DIRECTIONS| && Flanks(b, row, col, p, DIRECTIONS[k])
  }

  // ------------------------------------------------------------ playing

  function Place(b: Board, q: Pos, x: int): (r: Board)
    requires WellFormed(b) && InRange(q.row, q.col)
    ensures WellFormed(r)
  {
    b[q.row := b[q.row][q.col := x]]
  }

  /** Writes p into each listed cell, one after the other. */
  function FlipAll(b: Board, pieces: seq<Pos>, p: int): (r: Board)
    requires WellFormed(b) && AllInRange(pieces)
    ensures WellFormed(r)
    decreases |pieces|
  {
    if pieces == [] then b else FlipAll(Place(b, pieces[0], p), pieces[1..], p)
  }

  /**
   * The board after move m: a legal move puts the player's piece on the
   * target and turns over the flip set computed on the board before it;
   * any other move leaves the board as it was.
   */
  function Play(b: Board, m: Move): (r: Board)
    requires WellFormed(b)
    ensures WellFormed(r)
  {
    if ValidMove(b, m.row, m.col, m.player) then
      FlipSetFacts(b, m.row, m.col, m.player);
      FlipAll(Place(b, Pos(m.row, m.col), m.player), FlipSet(b, m.row, m.col, m.player), m.player)
    else
      b
  }

  /** The moves played one after another, first to last. */
  function PlayAll(b: Board, moves: seq<Move>): (r: Board)
    requires WellFormed(b)
    ensures WellFormed(r)
    decreases |moves|
  {
    if moves == [] then b else PlayAll(Play(b, moves[0]), moves[1..])
  }

  /** The opening position: white on (3,3) and (4,4), black on (3,4) and (4,3). */
  function InitialBoard(): (b: Board)
    ensures WellFormed(b)
    ensures forall i, j :: InRange(i, j) ==>
      b[i][j] == if (i == 3 && j == 3) || (i == 4 && j == 4) then WHITE
                 else if (i == 3 && j == 4) || (i == 4 && j == 3) then BLACK
                 else EMPTY
  {
    var empty := seq(BOARD_SIZE, _ => seq(BOARD_SIZE, _ => EMPTY));
    var b1 := Place(empty, Pos(3, 3), WHITE);
    var b2 := Place(b1, Pos(3, 4), BLACK);
    var b3 := Place(b2, Pos(4, 3), BLACK);
    Place(b3, Pos(4, 4), WHITE)
  }

  // ------------------------------------------------------------ counting

  /** The number of cells of s holding v. */
  function CountIn(s: seq<int>, v: int): nat
  {
    if s == [] then 0 else CountIn(s[..|s| - 1], v) + (if s[|s| - 1] == v then 1 else 0)
  }

  /** The number of cells of the board holding v, row by row. */
  function Count(b: Board, v: int): nat
  {
    if b == [] then 0 else Count(b[..|b| - 1], v) + CountIn(b[|b| - 1], v)
  }

  /** Position in row-major order. */
  function Index(q: Pos): int
  {
    q.row * BOARD_SIZE + q.col
  }

  predicate RowMajor(ps: seq<Pos>)
  {
    forall i, j :: 0 <= i < j < |ps| ==> Index(ps[i]) < Index(ps[j])
  }

  // ------------------------------------------------------------ one scan step

  lemma RayStep(b: Board, r: int, c: int, d: Direction, opp: int)
    requires WellFormed(b) && InRange(r, c) && b[r][c] == opp
    ensures Ray(b, r, c, d, opp) == [Pos(r, c)] + Ray(b, r + d.dr, c + d.dc, d, opp)
    ensures RayEnd(b, r, c, d, opp) == RayEnd(b, r + d.dr, c + d.dc, d, opp)
  {
  }

  /** A step from a cell on the board, in any direction, brings the edge closer. */
  lemma ReachStep(r: int, c: int, d: Direction)
    requires InRange(r, c)
    ensures 0 <= Reach(r + d.dr, c + d.dc, d) < Reach(r, c, d)
  {
  }

  lemma RayStop(b: Board, r: int, c: int, d: Direction, opp: int)
    requires WellFormed(b) && !(InRange(r, c) && b[r][c] == opp)
    ensures Ray(b, r, c, d, opp) == []
    ensures RayEnd(b, r, c, d, opp) == Pos(r, c)
  {
  }

  /** A scan that has collected `line` and now passes over one more opp cell. */
  lemma RayGrows(b: Board, line: seq<Pos>, r: int, c: int, d: Direction, opp: int, whole: seq<Pos>, end: Pos)
    requires WellFormed(b) && InRange(r, c) && b[r][c] == opp
    requires line + Ray(b, r, c, d, opp) == whole && RayEnd(b, r, c, d, opp) == end
    ensures (line + [Pos(r, c)]) + Ray(b, r + d.dr, c + d.dc, d, opp) == whole
    ensures RayEnd(b, r + d.dr, c + d.dc, d, opp) == end
  {
    var rest := Ray(b, r + d.dr, c + d.dc, d, opp);
    assert Ray(b, r, c, d, opp) == [Pos(r, c)] + rest;
    assert line + ([Pos(r, c)] + rest) == (line + [Pos(r, c)]) + rest;
  }

  /** A scan that has passed `seen` opp cells and now passes over one more. */
  lemma RaySkips(b: Board, seen: nat, r: int, c: int, d: Direction, opp: int, whole: nat, end: Pos)
    requires WellFormed(b) && InRange(r, c) && b[r][c] == opp
    requires seen + |Ray(b, r, c, d, opp)| == whole && RayEnd(b, r, c, d, opp) == end
    ensures (seen + 1) + |Ray(b, r + d.dr, c + d.dc, d, opp)| == whole
    ensures RayEnd(b, r + d.dr, c + d.dc, d, opp) == end
  {
    assert Ray(b, r, c, d, opp) == [Pos(r, c)] + Ray(b, r + d.dr, c + d.dc, d, opp);
  }

  /** Direction d flanks exactly when its run is non-empty and stops on one of p's pieces. */
  lemma FlanksAt(b: Board, row: int, col: int, p: int, d: Direction, hasOpponentPiece: bool, r: int, c: int)
    requires WellFormed(b)
    requires hasOpponentPiece <==> |Line(b, row, col, p, d)| > 0
    requires Pos(r, c) == RayEnd(b, row + d.dr, col + d.dc, d, Opponent(p))
    ensures Flanks(b, row, col, p, d) <==> hasOpponentPiece && InRange(r, c) && b[r][c] == p
  {
  }

  /** One more direction scanned: its run is kept when it ends on one of p's pieces. */
  lemma FlipsStep(b: Board, row: int, col: int, p: int, k: nat, line: seq<Pos>, r: int, c: int)
    requires WellFormed(b) && k < |DIRECTIONS|
    requires line == Line(b, row, col, p, DIRECTIONS[k])
    requires Pos(r, c) == RayEnd(b, row + DIRECTIONS[k].dr, col + DIRECTIONS[k].dc, DIRECTIONS[k], Opponent(p))
    ensures Flips(b, row, col, p, k + 1) ==
      Flips(b, row, col, p, k) + (if InRange(r, c) && b[r][c] == p then line else [])
  {
    FlipsUnfold(b, row, col, p, k);
    CapturedAt(b, row, col, p, DIRECTIONS[k], line, r, c);
  }

  lemma FlipsUnfold(b: Board, row: int, col: int, p: int, k: nat)
    requires WellFormed(b) && k < |DIRECTIONS|
    ensures Flips(b, row, col, p, k + 1) == Flips(b, row, col, p, k) + Captured(b, row, col, p, DIRECTIONS[k])
  {
  }

  /** What direction d captures, read off its run and the cell where the run stops. */
  lemma CapturedAt(b: Board, row: int, col: int, p: int, d: Direction, line: seq<Pos>, r: int, c: int)
    requires WellFormed(b)
    requires line == Line(b, row, col, p, d)
    requires Pos(r, c) == RayEnd(b, row + d.dr, col + d.dc, d, Opponent(p))
    ensures Captured(b, row, col, p, d) == if InRange(r, c) && b[r][c] == p then line else []
  {
  }

  /** Two boards that agree on every cell are the same board. */
  lemma SameBoard(x: Board, y: Board)
    requires WellFormed(x) && WellFormed(y)
    requires forall i, j :: InRange(i, j) ==> x[i][j] == y[i][j]
    ensures x == y
  {
    forall i | 0 <= i < BOARD_SIZE ensures x[i] == y[i]
    {
      assert forall j :: 0 <= j < BOARD_SIZE ==> x[i][j] == y[i][j];
    }
  }

  /** The cells where p may play. */
  ghost function Legal(b: Board, p: int): (cells: set<Pos>)
    requires WellFormed(b)
    ensures forall q :: q in cells ==> InRange(q.row, q.col)
  {
    set r, c | 0 <= r < BOARD_SIZE && 0 <= c < BOARD_SIZE && ValidMove(b, r, c, p) :: Pos(r, c)
  }

  /** `moves` lists, in row-major order, exactly the cells of `cells` with index below n. */
  ghost predicate ListedBefore(cells: set<Pos>, moves: seq<Pos>, n: int)
  {
    (forall q :: q in moves <==> q in cells && Index(q) < n) && RowMajor(moves)
  }

  /** The row-major scan has examined every cell with index below n. */
  ghost predicate MovesBefore(b: Board, p: int, moves: seq<Pos>, n: int)
    requires WellFormed(b)
  {
    ListedBefore(Legal(b, p), moves, n)
  }

  /** One more cell of a row-major scan examined. */
  lemma ListedStep(cells: set<Pos>, moves: seq<Pos>, q: Pos)
    requires forall x :: x in cells ==> InRange(x.row, x.col)
    requires InRange(q.row, q.col) && ListedBefore(cells, moves, Index(q))
    ensures ListedBefore(cells, if q in cells then moves + [q] else moves, Index(q) + 1)
  {
    var next := if q in cells then moves + [q] else moves;
    forall x
      ensures x in next <==> x in cells && Index(x) < Index(q) + 1
    {
      if x in cells && Index(x) == Index(q) {
        IndexInjective(x, q);
      }
    }
    if q in cells {
      forall i, j | 0 <= i < j < |next|
        ensures Index(next[i]) < Index(next[j])
      {
        if j == |moves| {
          assert next[i] in moves;
        }
      }
    }
  }

  /** Distinct cells of the board have distinct row-major indices. */
  lemma IndexInjective(q: Pos, q': Pos)
    requires InRange(q.row, q.col) && InRange(q'.row, q'.col)
    requires Index(q) == Index(q')
    ensures q == q'
  {
  }

  /** The scan step for the legal cells of a board. */
  lemma MovesStep(b: Board, p: int, moves: seq<Pos>, row: int, col: int, valid: bool)
    requires WellFormed(b) && InRange(row, col)
    requires MovesBefore(b, p, moves, Index(Pos(row, col)))
    requires valid == ValidMove(b, row, col, p)
    ensures MovesBefore(b, p, if valid then moves + [Pos(row, col)] else moves, Index(Pos(row, col)) + 1)
  {
    assert valid == (Pos(row, col) in Legal(b, p));
    ListedStep(Legal(b, p), moves, Pos(row, col));
  }

  /** The whole board scanned: every legal cell is listed. */
  lemma MovesDone(b: Board, p: int, moves: seq<Pos>)
    requires WellFormed(b) && MovesBefore(b, p, moves, Index(Pos(BOARD_SIZE, 0)))
    ensures forall r, c :: Pos(r, c) in moves <==> ValidMove(b, r, c, p)
    ensures RowMajor(moves)
  {
    forall r, c
      ensures Pos(r, c) in moves <==> ValidMove(b, r, c, p)
    {
      if ValidMove(b, r, c, p) {
        assert Pos(r, c) in Legal(b, p);
      }
    }
  }

  // ------------------------------------------------------------ geometry of rays

  function Sign(x: int): int
  {
    if x > 0 then 1 else if x < 0 then -1 else 0
  }

  /** The direction in which q lies as seen from o. */
  function Heading(o: Pos, q: Pos): Dir
  {
    Dir(Sign(q.row - o.row), Sign(q.col - o.col))
  }

  /** Progress along direction d; one step in d raises it by at least one. */
  function Progress(q: Pos, d: Direction): int
  {
    (if d.dr > 0 then q.row else if d.dr < 0 then -q.row else 0) +
    (if d.dc > 0 then q.col else if d.dc < 0 then -q.col else 0)
  }

  lemma DistinctConcat<T>(a: seq<T>, b: seq<T>)
    requires Distinct(a) && Distinct(b)
    requires forall x :: x in a ==> x !in b
    ensures Distinct(a + b)
  {
    var s := a + b;
    forall i, j | 0 <= i < j < |s| ensures s[i] != s[j]
    {
      if j < |a| {
        assert s[i] == a[i] && s[j] == a[j];
      } else if i < |a| {
        assert s[i] == a[i] && s[j] == b[j - |a|];
        assert s[j] in b;
      } else {
        assert s[i] == b[i - |a|] && s[j] == b[j - |a|];
      }
    }
  }

  /**
   * Every cell of a ray holds `opp`, lies on the board, is seen from o in
   * the ray's direction and lies no further back than the ray's start; no
   * cell occurs twice.
   */
  lemma {:induction false} RayFacts(b: Board, r: int, c: int, d: Direction, opp: int, o: Pos)
    requires WellFormed(b)
    requires Heading(o, Pos(r, c)) == d
    ensures forall q :: q in Ray(b, r, c, d, opp) ==>
      InRange(q.row, q.col) && b[q.row][q.col] == opp &&
      Heading(o, q) == d && Progress(q, d) >= Progress(Pos(r, c), d)
    ensures Distinct(Ray(b, r, c, d, opp))
    decreases Reach(r, c, d)
  {
    if InRange(r, c) && b[r][c] == opp {
      var rest := Ray(b, r + d.dr, c + d.dc, d, opp);
      RayFacts(b, r + d.dr, c + d.dc, d, opp, o);
      assert Progress(Pos(r + d.dr, c + d.dc), d) > Progress(Pos(r, c), d);
      DistinctConcat([Pos(r, c)], rest);
    }
  }

  lemma {:induction false} FlipsOnBoard(b: Board, row: int, col: int, p: int, n: nat)
    requires WellFormed(b) && n <= |DIRECTIONS|
    ensures forall q :: q in Flips(b, row, col, p, n) ==>
      InRange(q.row, q.col) && b[q.row][q.col] == Opponent(p)
  {
    if n > 0 {
      FlipsOnBoard(b, row, col, p, n - 1);
      var d := DIRECTIONS[n - 1];
      RayFacts(b, row + d.dr, col + d.dc, d, Opponent(p), Pos(row, col));
    }
  }

  /** The position of direction d in DIRECTIONS. */
  function DirIndex(d: Dir): int
  {
    var code := 3 * (d.dr + 1) + (d.dc + 1);
    if code < 4 then code else code - 1
  }

  lemma DirIndexOf(k: int)
    requires 0 <= k < |DIRECTIONS|
    ensures DirIndex(DIRECTIONS[k]) == k
  {
  }

  /** The pieces captured in direction d are distinct and lie in direction d from the move. */
  lemma CapturedHeading(b: Board, row: int, col: int, p: int, d: Direction)
    requires WellFormed(b)
    ensures Distinct(Captured(b, row, col, p, d))
    ensures forall q :: q in Captured(b, row, col, p, d) ==> Heading(Pos(row, col), q) == d
  {
    RayFacts(b, row + d.dr, col + d.dc, d, Opponent(p), Pos(row, col));
  }

  /** A flipped piece lies, seen from the move, in the direction that captured it. */
  lemma {:induction false} FlipsHeading(b: Board, row: int, col: int, p: int, n: nat)
    requires WellFormed(b) && n <= |DIRECTIONS|
    ensures forall q :: q in Flips(b, row, col, p, n) ==> DirIndex(Heading(Pos(row, col), q)) < n
  {
    if n > 0 {
      FlipsHeading(b, row, col, p, n - 1);
      CapturedHeading(b, row, col, p, DIRECTIONS[n - 1]);
      DirIndexOf(n - 1);
    }
  }

  /** Nothing turned over along the first n directions is captured again in direction n. */
  lemma FlipsDisjoint(b: Board, row: int, col: int, p: int, n: nat)
    requires WellFormed(b) && n < |DIRECTIONS|
    ensures forall x :: x in Flips(b, row, col, p, n) ==> x !in Captured(b, row, col, p, DIRECTIONS[n])
  {
    FlipsHeading(b, row, col, p, n);
    CapturedHeading(b, row, col, p, DIRECTIONS[n]);
    DirIndexOf(n);
  }

  lemma {:induction false} FlipsDistinct(b: Board, row: int, col: int, p: int, n: nat)
    requires WellFormed(b) && n <= |DIRECTIONS|
    ensures Distinct(Flips(b, row, col, p, n))
  {
    if n > 0 {
      var before, here := Flips(b, row, col, p, n - 1), Captured(b, row, col, p, DIRECTIONS[n - 1]);
      FlipsDistinct(b, row, col, p, n - 1);
      CapturedHeading(b, row, col, p, DIRECTIONS[n - 1]);
      FlipsDisjoint(b, row, col, p, n - 1);
      DistinctConcat(before, here);
      FlipsUnfold(b, row, col, p, n - 1);
    }
  }

  lemma {:induction false} FlipsNonEmpty(b: Board, row: int, col: int, p: int, n: nat)
    requires WellFormed(b) && n <= |DIRECTIONS|
    ensures |Flips(b, row, col, p, n)| > 0 <==> exists k :: 0 <= k < n && Flanks(b, row, col, p, DIRECTIONS[k])
  {
    if n > 0 {
      FlipsNonEmpty(b, row, col, p, n - 1);
      var d := DIRECTIONS[n - 1];
      assert |Flips(b, row, col, p, n)| == |Flips(b, row, col, p, n - 1)| + |Captured(b, row, col, p, d)|;
      assert |Captured(b, row, col, p, d)| > 0 <==> Flanks(b, row, col, p, d);
      if !Flanks(b, row, col, p, d) && exists k :: 0 <= k < n && Flanks(b, row, col, p, DIRECTIONS[k]) {
        var k :| 0 <= k < n && Flanks(b, row, col, p, DIRECTIONS[k]);
        assert k < n - 1;
      }
    }
  }

  // ------------------------------------------------------------ properties

  /** The flip set lies on the board, holds only opponent pieces and repeats no cell. */
  lemma FlipSetFacts(b: Board, row: int, col: int, p: int)
    requires WellFormed(b)
    ensures AllInRange(FlipSet(b, row, col, p))
    ensures forall q :: q in FlipSet(b, row, col, p) ==> b[q.row][q.col] == Opponent(p)
    ensures Distinct(FlipSet(b, row, col, p))
  {
    FlipsOnBoard(b, row, col, p, |DIRECTIONS|);
    FlipsDistinct(b, row, col, p, |DIRECTIONS|);
  }

  /** On an empty cell of the board, a move is legal exactly when it turns something over. */
  lemma ValidIffFlips(b: Board, row: int, col: int, p: int)
    requires WellFormed(b)
    ensures ValidMove(b, row, col, p) <==>
      InRange(row, col) && b[row][col] == EMPTY && |FlipSet(b, row, col, p)| > 0
  {
    FlipsNonEmpty(b, row, col, p, |DIRECTIONS|);
  }

  // ------------------------------------------------------------ counting lemmas

  lemma {:induction false} CountInUpdate(s: seq<int>, j: int, x: int, v: int)
    requires 0 <= j < |s|
    ensures CountIn(s[j := x], v) ==
      CountIn(s, v) - (if s[j] == v then 1 else 0) + (if x == v then 1 else 0)
    decreases |s|
  {
    var t := s[j := x];
    var k := |s| - 1;
    if j == k {
      assert t[..k] == s[..k];
    } else {
      assert t[..k] == s[..k][j := x];
      CountInUpdate(s[..k], j, x, v);
    }
  }

  lemma {:induction false} CountUpdate(b: Board, i: int, j: int, x: int, v: int)
    requires 0 <= i < |b| && 0 <= j < |b[i]|
    ensures Count(b[i := b[i][j := x]], v) ==
      Count(b, v) - (if b[i][j] == v then 1 else 0) + (if x == v then 1 else 0)
    decreases |b|
  {
    var t := b[i := b[i][j := x]];
    var k := |b| - 1;
    if i == k {
      assert t[..k] == b[..k];
      CountInUpdate(b[k], j, x, v);
    } else {
      assert t[..k] == b[..k][i := b[..k][i][j := x]];
      CountUpdate(b[..k], i, j, x, v);
    }
  }

  lemma {:induction false} CountAbsent(b: Board, v: int)
    requires forall i, j :: 0 <= i < |b| && 0 <= j < |b[i]| ==> b[i][j] != v
    ensures Count(b, v) == 0
    decreases |b|
  {
    if b != [] {
      var k := |b| - 1;
      CountAbsent(b[..k], v);
      CountInAbsent(b[k], v);
    }
  }

  lemma {:induction false} CountInAbsent(s: seq<int>, v: int)
    requires forall j :: 0 <= j < |s| ==> s[j] != v
    ensures CountIn(s, v) == 0
    decreases |s|
  {
    if s != [] {
      CountInAbsent(s[..|s| - 1], v);
    }
  }

  /** Writing the same value into listed cells sets exactly those cells. */
  lemma {:induction false} FlipAllCells(b: Board, pieces: seq<Pos>, p: int)
    requires WellFormed(b) && AllInRange(pieces)
    ensures forall i, j :: InRange(i, j) ==>
      FlipAll(b, pieces, p)[i][j] == if Pos(i, j) in pieces then p else b[i][j]
    decreases |pieces|
  {
    if pieces != [] {
      FlipAllCells(Place(b, pieces[0], p), pieces[1..], p);
      assert forall q :: q in pieces <==> q == pieces[0] || q in pieces[1..];
    }
  }

  /**
   * Turning over distinct cells that all hold opp gives p one more piece per
   * cell and takes one from opp per cell.
   */
  lemma {:induction false} FlipAllCount(b: Board, pieces: seq<Pos>, p: int, opp: int)
    requires WellFormed(b) && AllInRange(pieces) && Distinct(pieces)
    requires forall q :: q in pieces ==> b[q.row][q.col] == opp
    requires p != opp
    ensures Count(FlipAll(b, pieces, p), p) == Count(b, p) + |pieces|
    ensures Count(FlipAll(b, pieces, p), opp) == Count(b, opp) - |pieces|
    decreases |pieces|
  {
    if pieces != [] {
      var q := pieces[0];
      var rest := pieces[1..];
      var b1 := Place(b, q, p);
      CountUpdate(b, q.row, q.col, p, p);
      CountUpdate(b, q.row, q.col, p, opp);
      forall q' | q' in rest ensures b1[q'.row][q'.col] == opp
      {
        assert q' != q;
      }
      assert Distinct(rest) by {
        forall i, j | 0 <= i < j < |rest| ensures rest[i] != rest[j]
        {
          assert rest[i] == pieces[i + 1] && rest[j] == pieces[j + 1];
        }
      }
      FlipAllCount(b1, rest, p, opp);
    }
  }

  // ------------------------------------------------------------ properties of a move

  /**
   * An illegal move changes nothing. A legal move puts p on the target and
   * on exactly the flipped cells, and leaves every other cell as it was.
   */
  lemma PlayCells(b: Board, m: Move)
    requires WellFormed(b)
    ensures !ValidMove(b, m.row, m.col, m.player) ==> Play(b, m) == b
    ensures ValidMove(b, m.row, m.col, m.player) ==>
      forall i, j :: InRange(i, j) ==>
        Play(b, m)[i][j] ==
          if Pos(i, j) == Pos(m.row, m.col) || Pos(i, j) in FlipSet(b, m.row, m.col, m.player)
          then m.player else b[i][j]
  {
    if ValidMove(b, m.row, m.col, m.player) {
      FlipSetFacts(b, m.row, m.col, m.player);
      FlipAllCells(Place(b, Pos(m.row, m.col), m.player), FlipSet(b, m.row, m.col, m.player), m.player);
    }
  }

  /**
   * A legal move that turns over k pieces raises the mover's count by 1 + k
   * and lowers the opponent's by k.
   */
  lemma PlayCounts(b: Board, m: Move)
    requires WellFormed(b) && IsPlayer(m.player) && ValidMove(b, m.row, m.col, m.player)
    ensures Count(Play(b, m), m.player) ==
      Count(b, m.player) + 1 + |FlipSet(b, m.row, m.col, m.player)|
    ensures Count(Play(b, m), Opponent(m.player)) ==
      Count(b, Opponent(m.player)) - |FlipSet(b, m.row, m.col, m.player)|
  {
    var p, opp := m.player, Opponent(m.player);
    var target := Pos(m.row, m.col);
    var pieces := FlipSet(b, m.row, m.col, p);
    FlipSetFacts(b, m.row, m.col, p);
    var b1 := Place(b, target, p);
    CountUpdate(b, m.row, m.col, p, p);
    CountUpdate(b, m.row, m.col, p, opp);
    forall q | q in pieces ensures b1[q.row][q.col] == opp
    {
      assert q != target;
    }
    FlipAllCount(b1, pieces, p, opp);
  }

  /** Playing a list of moves is playing its two halves one after the other. */
  lemma {:induction false} PlayAllAppend(b: Board, first: seq<Move>, second: seq<Move>)
    requires WellFormed(b)
    ensures PlayAll(b, first + second) == PlayAll(PlayAll(b, first), second)
    decreases |first|
  {
    if first != [] {
      assert (first + second)[0] == first[0];
      assert (first + second)[1..] == first[1..] + second;
      PlayAllAppend(Play(b, first[0]), first[1..], second);
    } else {
      assert first + second == second;
    }
  }

  /** The opening position holds two black and two white pieces. */
  lemma InitialCounts()
    ensures Count(InitialBoard(), BLACK) == 2
    ensures Count(InitialBoard(), WHITE) == 2
    ensures Count(InitialBoard(), EMPTY) == BOARD_SIZE * BOARD_SIZE - 4
  {
    var empty := seq(BOARD_SIZE, _ => seq(BOARD_SIZE, _ => EMPTY));
    CountAbsent(empty, BLACK);
    CountAbsent(empty, WHITE);
    assert Count(empty, EMPTY) == BOARD_SIZE * BOARD_SIZE by {
      CountAllOf(empty, EMPTY);
    }
    var b1 := Place(empty, Pos(3, 3), WHITE);
    var b2 := Place(b1, Pos(3, 4), BLACK);
    var b3 := Place(b2, Pos(4, 3), BLACK);
    var b4 := Place(b3, Pos(4, 4), WHITE);
    CountUpdate(empty, 3, 3, WHITE, BLACK);
    CountUpdate(empty, 3, 3, WHITE, WHITE);
    CountUpdate(empty, 3, 3, WHITE, EMPTY);
    CountUpdate(b1, 3, 4, BLACK, BLACK);
    CountUpdate(b1, 3, 4, BLACK, WHITE);
    CountUpdate(b1, 3, 4, BLACK, EMPTY);
    CountUpdate(b2, 4, 3, BLACK, BLACK);
    CountUpdate(b2, 4, 3, BLACK, WHITE);
    CountUpdate(b2, 4, 3, BLACK, EMPTY);
    CountUpdate(b3, 4, 4, WHITE, BLACK);
    CountUpdate(b3, 4, 4, WHITE, WHITE);
    CountUpdate(b3, 4, 4, WHITE, EMPTY);
    assert b4 == InitialBoard();
  }

  lemma {:induction false} CountAllOf(b: Board, v: int)
    requires WellFormed(b)
    requires forall i, j :: 0 <= i < |b| && 0 <= j < |b[i]| ==> b[i][j] == v
    ensures Count(b, v) == BOARD_SIZE * BOARD_SIZE
  {
    CountRowsAllOf(b, v, |b|);
    assert b[..|b|] == b;
  }

  lemma {:induction false} CountRowsAllOf(b: Board, v: int, n: nat)
    requires WellFormed(b) && n <= |b|
    requires forall i, j :: 0 <= i < |b| && 0 <= j < |b[i]| ==> b[i][j] == v
    ensures Count(b[..n], v) == n * BOARD_SIZE
  {
    if n > 0 {
      assert b[..n][..n - 1] == b[..n - 1];
      CountRowsAllOf(b, v, n - 1);
      CountInAllOf(b[n - 1], v, BOARD_SIZE);
      assert b[n - 1][..BOARD_SIZE] == b[n - 1];
    }
  }

  lemma {:induction false} CountInAllOf(s: seq<int>, v: int, n: nat)
    requires n <= |s|
    requires forall j :: 0 <= j < |s| ==> s[j] == v
    ensures CountIn(s[..n], v) == n
  {
    if n > 0 {
      assert s[..n][..n - 1] == s[..n - 1];
      CountInAllOf(s, v, n - 1);
    }
  }
}
