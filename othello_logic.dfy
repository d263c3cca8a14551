/**
 * The copying Othello implementation: every function takes a board value
 * and returns a new one, so a caller's board is never changed. The scans
 * keep the loops of the implementation and are proved to compute the
 * rules of `OthelloRules`.
 */
module OthelloLogic {
  import opened OthelloRules

  /**
   * The inner loop of `isValidMove`: steps from (r0, c0) in direction d over
   * opponent pieces, reporting whether it passed any and where it stopped.
   */
  method SkipRun(b: Board, r0: int, c0: int, d: Direction, opponent: int)
    returns (hasOpponentPiece: bool, r: int, c: int)
    requires WellFormed(b)
    ensures hasOpponentPiece <==> |Ray(b, r0, c0, d, opponent)| > 0
    ensures Pos(r, c) == RayEnd(b, r0, c0, d, opponent)
  {
    r, c := r0, c0;
    hasOpponentPiece := false;
    ghost var end := RayEnd(b, r0, c0, d, opponent);
    while InRange(r, c) && b[r][c] == opponent
      invariant RayEnd(b, r, c, d, opponent) == end
      invariant hasOpponentPiece ==> InRange(r0, c0) && b[r0][c0] == opponent
      invariant !hasOpponentPiece ==> r == r0 && c == c0
      decreases Reach(r, c, d)
    {
      assert b[r][c] == opponent;
      ReachStep(r, c, d);
      RayStep(b, r, c, d, opponent);
      r, c := r + d.dr, c + d.dc;
      hasOpponentPiece := true;
    }
    RayStop(b, r, c, d, opponent);
  }

  /** Whether p may play at (row, col); cells off the board are never legal. */
  method IsValidMove(b: Board, row: int, col: int, p: int) returns (valid: bool)
    requires WellFormed(b)
    ensures valid == ValidMove(b, row, col, p)
  {
    if row < 0 || row >= BOARD_SIZE || col < 0 || col >= BOARD_SIZE {
      return false;
    }
    if b[row][col] != EMPTY {
      return false;
    }
    var opponent := Opponent(p);
    for k := 0 to |DIRECTIONS|
      invariant forall j :: 0 <= j < k ==> !Flanks(b, row, col, p, DIRECTIONS[j])
    {
      var d := DIRECTIONS[k];
      var hasOpponentPiece, r, c := SkipRun(b, row + d.dr, col + d.dc, d, opponent);
      FlanksAt(b, row, col, p, d, hasOpponentPiece, r, c);
      if hasOpponentPiece && InRange(r, c) && b[r][c] == p {
        return true;
      }
    }
    return false;
  }

  /**
   * The inner loop of `getPiecesToFlip`: collects the opponent pieces from
   * (r0, c0) on in direction d and reports where the run stopped.
   */
  method CollectRun(b: Board, r0: int, c0: int, d: Direction, opponent: int)
    returns (line: seq<Pos>, r: int, c: int)
    requires WellFormed(b)
    ensures line == Ray(b, r0, c0, d, opponent)
    ensures Pos(r, c) == RayEnd(b, r0, c0, d, opponent)
  {
    r, c := r0, c0;
    line := [];
    ghost var whole := Ray(b, r0, c0, d, opponent);
    ghost var end := RayEnd(b, r0, c0, d, opponent);
    while InRange(r, c) && b[r][c] == opponent
      invariant line + Ray(b, r, c, d, opponent) == whole
      invariant RayEnd(b, r, c, d, opponent) == end
      decreases Reach(r, c, d)
    {
      ReachStep(r, c, d);
      RayGrows(b, line, r, c, d, opponent, whole, end);
      line := line + [Pos(r, c)];
      r, c := r + d.dr, c + d.dc;
    }
    RayStop(b, r, c, d, opponent);
    assert line + [] == line;
  }

  /** The pieces a move at (row, col) by p would turn over, direction by direction. */
  method GetPiecesToFlip(b: Board, row: int, col: int, p: int) returns (pieces: seq<Pos>)
    requires WellFormed(b)
    ensures pieces == FlipSet(b, row, col, p)
  {
    pieces := [];
    var opponent := Opponent(p);
    for k := 0 to |DIRECTIONS|
      invariant pieces == Flips(b, row, col, p, k)
    {
      var d := DIRECTIONS[k];
      var line, r, c := CollectRun(b, row + d.dr, col + d.dc, d, opponent);
      FlipsStep(b, row, col, p, k, line, r, c);
      if InRange(r, c) && b[r][c] == p {
        pieces := pieces + line;
      }
    }
  }

  /** Writes p into each listed cell of the board it is given. */
  method FlipPieces(b: Board, pieces: seq<Pos>, p: int) returns (nb: Board)
    requires WellFormed(b) && AllInRange(pieces)
    ensures nb == FlipAll(b, pieces, p)
  {
    nb := b;
    for k := 0 to |pieces|
      invariant WellFormed(nb)
      invariant FlipAll(nb, pieces[k..], p) == FlipAll(b, pieces, p)
    {
      assert pieces[k..][0] == pieces[k] && pieces[k..][1..] == pieces[k + 1..];
      var q := pieces[k];
      nb := nb[q.row := nb[q.row][q.col := p]];
    }
  }

  /** The board after move m, on a fresh copy; the argument is left as it was. */
  method ApplyMove(b: Board, m: Move) returns (nb: Board)
    requires WellFormed(b)
    ensures nb == Play(b, m)
  {
    nb := b;
    var valid := IsValidMove(nb, m.row, m.col, m.player);
    if valid {
      var pieces := GetPiecesToFlip(nb, m.row, m.col, m.player);
      FlipSetFacts(b, m.row, m.col, m.player);
      nb := nb[m.row := nb[m.row][m.col := m.player]];
      nb := FlipPieces(nb, pieces, m.player);
    }
  }

  /** The moves applied in order, each to the board the previous one produced. */
  method ApplyMoves(b: Board, moves: seq<Move>) returns (nb: Board)
    requires WellFormed(b)
    ensures nb == PlayAll(b, moves)
  {
    nb := b;
    for k := 0 to |moves|
      invariant WellFormed(nb)
      invariant PlayAll(nb, moves[k..]) == PlayAll(b, moves)
    {
      assert moves[k..][0] == moves[k] && moves[k..][1..] == moves[k + 1..];
      nb := ApplyMove(nb, moves[k]);
    }
  }

  /** Exactly the cells where p may play, in row-major order. */
  method GetValidMoves(b: Board, p: int) returns (moves: seq<Pos>)
    requires WellFormed(b)
    ensures forall r, c :: Pos(r, c) in moves <==> ValidMove(b, r, c, p)
    ensures RowMajor(moves)
  {
    moves := [];
    for row := 0 to BOARD_SIZE
      invariant MovesBefore(b, p, moves, Index(Pos(row, 0)))
    {
      for col := 0 to BOARD_SIZE
        invariant MovesBefore(b, p, moves, Index(Pos(row, col)))
      {
        var valid := IsValidMove(b, row, col, p);
        MovesStep(b, p, moves, row, col, valid);
        if valid {
          moves := moves + [Pos(row, col)];
        }
      }
    }
    MovesDone(b, p, moves);
  }

  /** The number of black and of white pieces. */
  method CountPieces(b: Board) returns (black: nat, white: nat)
    requires WellFormed(b)
    ensures black == Count(b, BLACK) && white == Count(b, WHITE)
  {
    black, white := 0, 0;
    for row := 0 to BOARD_SIZE
      invariant black == Count(b[..row], BLACK) && white == Count(b[..row], WHITE)
    {
      for col := 0 to BOARD_SIZE
        invariant black == Count(b[..row], BLACK) + CountIn(b[row][..col], BLACK)
        invariant white == Count(b[..row], WHITE) + CountIn(b[row][..col], WHITE)
      {
        assert b[row][..col + 1][..col] == b[row][..col];
        if b[row][col] == BLACK {
          black := black + 1;
        } else if b[row][col] == WHITE {
          white := white + 1;
        }
      }
      assert b[..row + 1][..row] == b[..row];
      assert b[row][..BOARD_SIZE] == b[row];
    }
    assert b[..BOARD_SIZE] == b;
  }

  /** The game is over exactly when neither side has a legal move. */
  method IsGameOver(b: Board) returns (over: bool)
    requires WellFormed(b)
    ensures over <==> forall r, c :: !ValidMove(b, r, c, BLACK) && !ValidMove(b, r, c, WHITE)
  {
    var blackMoves := GetValidMoves(b, BLACK);
    var whiteMoves := GetValidMoves(b, WHITE);
    over := |blackMoves| == 0 && |whiteMoves| == 0;
    if |blackMoves| > 0 {
      var q := blackMoves[0];
      assert Pos(q.row, q.col) in blackMoves;
    } else if |whiteMoves| > 0 {
      var q := whiteMoves[0];
      assert Pos(q.row, q.col) in whiteMoves;
    }
  }

  /** 1 when black holds more pieces, 2 when white does, 0 on a tie. */
  method GetWinner(b: Board) returns (winner: int)
    requires WellFormed(b)
    ensures winner == BLACK <==> Count(b, BLACK) > Count(b, WHITE)
    ensures winner == WHITE <==> Count(b, WHITE) > Count(b, BLACK)
    ensures winner == EMPTY <==> Count(b, BLACK) == Count(b, WHITE)
  {
    var black, white := CountPieces(b);
    if black > white {
      return BLACK;
    }
    if white > black {
      return WHITE;
    }
    return EMPTY;
  }
}
