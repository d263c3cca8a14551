/**
 * The in-place Othello implementation: the board is one 8x8 array that
 * `flipPieces` and `applyMoves` overwrite, and the scans read it without
 * checking that a cell lies on the board. Each operation is proved to agree
 * with the rules of `OthelloRules` on the board the array holds, so playing
 * moves in place ends on the same board as the copying implementation.
 */
module OthelloInPlace {
  import opened OthelloRules

  predicate Square(a: array2<int>)
  {
    a.Length0 == BOARD_SIZE && a.Length1 == BOARD_SIZE
  }

  /** The board the array holds, as a value. */
  function Cells(a: array2<int>): (b: Board)
    reads a
    requires Square(a)
    ensures WellFormed(b)
    ensures forall i, j :: InRange(i, j) ==> b[i][j] == a[i, j]
  {
    seq(BOARD_SIZE, i requires 0 <= i < BOARD_SIZE reads a =>
      seq(BOARD_SIZE, j requires 0 <= j < BOARD_SIZE reads a => a[i, j]))
  }

  /** A fresh array holding the opening position. */
  method CreateInitialBoard() returns (a: array2<int>)
    ensures fresh(a) && Square(a)
    ensures Cells(a) == InitialBoard()
  {
    a := new int[BOARD_SIZE, BOARD_SIZE]((i, j) => EMPTY);
    a[3, 3] := WHITE;
    a[3, 4] := BLACK;
    a[4, 3] := BLACK;
    a[4, 4] := WHITE;
    SameBoard(Cells(a), InitialBoard());
  }

  /**
   * The inner loop of `isValidMove`: steps from (r, c) in direction d over
   * opponent pieces, reporting whether it passed any and where it stopped.
   */
  method SkipRun(a: array2<int>, r0: int, c0: int, d: Direction, opponent: int)
    returns (hasOpponentPiece: bool, r: int, c: int)
    requires Square(a)
    ensures hasOpponentPiece <==> |Ray(Cells(a), r0, c0, d, opponent)| > 0
    ensures Pos(r, c) == RayEnd(Cells(a), r0, c0, d, opponent)
  {
    ghost var b := Cells(a);
    r, c := r0, c0;
    hasOpponentPiece := false;
    ghost var end := RayEnd(b, r0, c0, d, opponent);
    while InRange(r, c) && a[r, c] == opponent
      invariant RayEnd(b, r, c, d, opponent) == end
      invariant hasOpponentPiece ==> InRange(r0, c0) && b[r0][c0] == opponent
      invariant !hasOpponentPiece ==> r == r0 && c == c0
      decreases Reach(r, c, d)
    {
      assert b[r][c] == opponent;
      ReachStep(r, c, d);
      RayStep(b, r, c, d, opponent);
      r, c := r + d.dr, c + d.dc;
      hasOpponentPiece := true;
    }
    RayStop(b, r, c, d, opponent);
  }

  /**
   * Whether p may play at (row, col). A row off the board has no cells to
   * read, so the row must be on the board; a column off the board reads as
   * undefined, which is not empty, so such a move is rejected.
   */
  method IsValidMove(a: array2<int>, row: int, col: int, p: int) returns (valid: bool)
    requires Square(a) && 0 <= row < BOARD_SIZE
    ensures valid == ValidMove(Cells(a), row, col, p)
  {
    if col < 0 || col >= BOARD_SIZE || a[row, col] != EMPTY {
      return false;
    }
    ghost var b := Cells(a);
    var opponent := Opponent(p);
    for k := 0 to |DIRECTIONS|
      invariant forall j :: 0 <= j < k ==> !Flanks(b, row, col, p, DIRECTIONS[j])
    {
      var d := DIRECTIONS[k];
      var hasOpponentPiece, r, c := SkipRun(a, row + d.dr, col + d.dc, d, opponent);
      FlanksAt(b, row, col, p, d, hasOpponentPiece, r, c);
      if InRange(r, c) {
        assert a[r, c] == b[r][c];
      }
      if hasOpponentPiece && InRange(r, c) && a[r, c] == p {
        return true;
      }
    }
    return false;
  }

  /**
   * The inner loop of `getPiecesToFlip`: collects the opponent pieces from
   * (r0, c0) on in direction d and reports where the run stopped.
   */
  method CollectRun(a: array2<int>, r0: int, c0: int, d: Direction, opponent: int)
    returns (line: seq<Pos>, r: int, c: int)
    requires Square(a)
    ensures line == Ray(Cells(a), r0, c0, d, opponent)
    ensures Pos(r, c) == RayEnd(Cells(a), r0, c0, d, opponent)
  {
    ghost var b := Cells(a);
    r, c := r0, c0;
    line := [];
    ghost var whole := Ray(b, r0, c0, d, opponent);
    ghost var end := RayEnd(b, r0, c0, d, opponent);
    while InRange(r, c) && a[r, c] == opponent
      invariant line + Ray(b, r, c, d, opponent) == whole
      invariant RayEnd(b, r, c, d, opponent) == end
      decreases Reach(r, c, d)
    {
      assert b[r][c] == opponent;
      ReachStep(r, c, d);
      RayGrows(b, line, r, c, d, opponent, whole, end);
      line := line + [Pos(r, c)];
      r, c := r + d.dr, c + d.dc;
    }
    RayStop(b, r, c, d, opponent);
    assert line + [] == line;
  }

  /** The pieces a move at (row, col) by p would turn over, direction by direction. */
  method GetPiecesToFlip(a: array2<int>, row: int, col: int, p: int) returns (pieces: seq<Pos>)
    requires Square(a)
    ensures pieces == FlipSet(Cells(a), row, col, p)
  {
    ghost var b := Cells(a);
    pieces := [];
    var opponent := Opponent(p);
    for k := 0 to |DIRECTIONS|
      invariant pieces == Flips(b, row, col, p, k)
    {
      var d := DIRECTIONS[k];
      var line, r, c := CollectRun(a, row + d.dr, col + d.dc, d, opponent);
      FlipsStep(b, row, col, p, k, line, r, c);
      if InRange(r, c) && a[r, c] == p {
        pieces := pieces + line;
      }
    }
  }

  /** Overwrites exactly the listed cells with p. */
  method FlipPieces(a: array2<int>, pieces: seq<Pos>, p: int)
    requires Square(a) && AllInRange(pieces)
    modifies a
    ensures forall i, j :: InRange(i, j) ==>
      a[i, j] == if Pos(i, j) in pieces then p else old(a[i, j])
  {
    for k := 0 to |pieces|
      invariant forall i, j :: InRange(i, j) ==>
        a[i, j] == if Pos(i, j) in pieces[..k] then p else old(a[i, j])
    {
      assert pieces[..k + 1] == pieces[..k] + [pieces[k]];
      a[pieces[k].row, pieces[k].col] := p;
    }
    assert pieces[..|pieces|] == pieces;
  }

  /** The body of the `applyMoves` loop: one move played on the array. */
  method PlayMove(a: array2<int>, m: Move)
    requires Square(a) && 0 <= m.row < BOARD_SIZE
    modifies a
    ensures Cells(a) == Play(old(Cells(a)), m)
  {
    ghost var before := Cells(a);
    var valid := IsValidMove(a, m.row, m.col, m.player);
    if valid {
      var pieces := GetPiecesToFlip(a, m.row, m.col, m.player);
      FlipSetFacts(before, m.row, m.col, m.player);
      a[m.row, m.col] := m.player;
      FlipPieces(a, pieces, m.player);
    }
    PlayCells(before, m);
    SameBoard(Cells(a), Play(before, m));
  }

  /**
   * Plays the moves in order on the array itself; it ends holding the board
   * the copying implementation returns for the same moves.
   */
  method ApplyMoves(a: array2<int>, moves: seq<Move>)
    requires Square(a)
    requires forall m :: m in moves ==> 0 <= m.row < BOARD_SIZE
    modifies a
    ensures Cells(a) == PlayAll(old(Cells(a)), moves)
  {
    for k := 0 to |moves|
      invariant PlayAll(Cells(a), moves[k..]) == PlayAll(old(Cells(a)), moves)
    {
      assert moves[k..][0] == moves[k] && moves[k..][1..] == moves[k + 1..];
      PlayMove(a, moves[k]);
    }
  }

  /** Exactly the cells where p may play, in row-major order. */
  method GetValidMoves(a: array2<int>, p: int) returns (moves: seq<Pos>)
    requires Square(a)
    ensures forall r, c :: Pos(r, c) in moves <==> ValidMove(Cells(a), r, c, p)
    ensures RowMajor(moves)
  {
    ghost var b := Cells(a);
    moves := [];
    for row := 0 to BOARD_SIZE
      invariant MovesBefore(b, p, moves, Index(Pos(row, 0)))
    {
      for col := 0 to BOARD_SIZE
        invariant MovesBefore(b, p, moves, Index(Pos(row, col)))
      {
        var valid := IsValidMove(a, row, col, p);
        MovesStep(b, p, moves, row, col, valid);
        if valid {
          moves := moves + [Pos(row, col)];
        }
      }
    }
    MovesDone(b, p, moves);
  }
}
