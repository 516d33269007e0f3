/** The move rules that only read the board: Game.nothingInBetween and the
    isValidCapture tests of Pawn, Knight, Bishop, Rook and Queen. (The King's
    test may make trial moves and lives in module Attacks.) */
module Rules {
  import opened Util
  import opened Squares
  import opened Pieces

  // ---------------------------------------------------------------------
  // Game.nothingInBetween
  // ---------------------------------------------------------------------

  /** How many more steps in direction (dx, dy) stay on the board. */
  function StepsLeft(cur: Square, dx: int, dy: int): nat
    requires OnBoard(cur)
  {
    (if dx == 1 then 7 - cur.col else if dx == -1 then cur.col else 0)
    + (if dy == 1 then 7 - cur.row else if dy == -1 then cur.row else 0)
  }

  /** k * d for a direction component d in {-1, 0, 1}. */
  function Scale(k: int, d: int): int
  {
    if d == 1 then k else if d == -1 then -k else 0
  }

  /** The square k steps from cur in direction (dx, dy). */
  function Ray(cur: Square, dx: int, dy: int, k: int): Square
  {
    Square(cur.row + Scale(k, dy), cur.col + Scale(k, dx))
  }

  predicate IsDirection(dx: int, dy: int)
  {
    -1 <= dx <= 1 && -1 <= dy <= 1 && (dx != 0 || dy != 0)
  }

  /** Game.nothingInBetween(newPos, current, dirX, dirY): walks from current
      towards newPos, one square per call, and is true if it reaches newPos
      or the edge of the board without meeting an occupied square. */
  predicate NothingInBetween(b: Occupancy, newPos: Square, cur: Square, dx: int, dy: int)
    requires OnBoard(cur) && IsDirection(dx, dy)
    decreases StepsLeft(cur, dx, dy)
  {
    if cur == newPos || cur.col + dx == -1 || cur.row + dy == -1 || cur.col + dx == 8 || cur.row + dy == 8 then true
    else cur !in b && NothingInBetween(b, newPos, Square(cur.row + dy, cur.col + dx), dx, dy)
  }

  lemma RayStep(cur: Square, dx: int, dy: int, j: int)
    requires IsDirection(dx, dy)
    ensures Ray(cur, dx, dy, j + 1) == Ray(Square(cur.row + dy, cur.col + dx), dx, dy, j)
  {
  }

  /** The squares from step 1 to step k - 1 of the ray from cur are the
      squares from step 0 to step k - 2 of the ray from its neighbour. */
  lemma {:induction false} RayShiftClear(b: Occupancy, cur: Square, dx: int, dy: int, k: nat)
    requires IsDirection(dx, dy) && k >= 1
    ensures var next := Square(cur.row + dy, cur.col + dx);
            (forall j :: 0 <= j < k - 1 ==> Ray(next, dx, dy, j) !in b)
            <==> (forall j :: 1 <= j < k ==> Ray(cur, dx, dy, j) !in b)
  {
    var next := Square(cur.row + dy, cur.col + dx);
    if forall j :: 1 <= j < k ==> Ray(cur, dx, dy, j) !in b {
      forall j | 0 <= j < k - 1
        ensures Ray(next, dx, dy, j) !in b
      {
        RayStep(cur, dx, dy, j);
      }
    }
    if forall j :: 0 <= j < k - 1 ==> Ray(next, dx, dy, j) !in b {
      forall j | 1 <= j < k
        ensures Ray(cur, dx, dy, j) !in b
      {
        RayStep(cur, dx, dy, j - 1);
      }
    }
  }

  /** One call of the walk that neither stops nor leaves the board: the
      square cur must be empty and the walk goes on from its neighbour. */
  lemma {:induction false} NothingInBetweenStep(b: Occupancy, newPos: Square, cur: Square, dx: int, dy: int)
    requires OnBoard(cur) && IsDirection(dx, dy) && cur != newPos
    requires OnBoard(Square(cur.row + dy, cur.col + dx))
    ensures NothingInBetween(b, newPos, cur, dx, dy)
            <==> cur !in b && NothingInBetween(b, newPos, Square(cur.row + dy, cur.col + dx), dx, dy)
  {
    var next := Square(cur.row + dy, cur.col + dx);
    var stop := cur == newPos || cur.col + dx == -1 || cur.row + dy == -1 || cur.col + dx == 8 || cur.row + dy == 8;
    assert !stop;
    assert NothingInBetween(b, newPos, cur, dx, dy) == if stop then true else cur !in b && NothingInBetween(b, newPos, next, dx, dy);
  }

  /** The first k steps of a ray are empty exactly when its start is and
      the steps from 1 to k - 1 are. */
  lemma {:induction false} ClearFromStart(b: Occupancy, cur: Square, dx: int, dy: int, k: nat)
    requires k >= 1
    ensures (forall j :: 0 <= j < k ==> Ray(cur, dx, dy, j) !in b)
            <==> cur !in b && (forall j :: 1 <= j < k ==> Ray(cur, dx, dy, j) !in b)
  {
    assert Ray(cur, dx, dy, 0) == cur;
  }

  /** When newPos lies k >= 0 steps along the ray from cur, the walk is true
      exactly when the k squares from cur up to (excluding) newPos are empty. */
  lemma {:induction false} NothingInBetweenClear(b: Occupancy, cur: Square, dx: int, dy: int, k: nat)
    requires OnBoard(cur) && IsDirection(dx, dy) && OnBoard(Ray(cur, dx, dy, k))
    ensures NothingInBetween(b, Ray(cur, dx, dy, k), cur, dx, dy)
            <==> forall j :: 0 <= j < k ==> Ray(cur, dx, dy, j) !in b
    decreases k
  {
    assert Ray(cur, dx, dy, 0) == cur;
    if k > 0 {
      var next := Square(cur.row + dy, cur.col + dx);
      RayStep(cur, dx, dy, k - 1);
      NothingInBetweenClear(b, next, dx, dy, k - 1);
      NothingInBetweenStep(b, Ray(cur, dx, dy, k), cur, dx, dy);
      RayShiftClear(b, cur, dx, dy, k);
      ClearFromStart(b, cur, dx, dy, k);
    }
  }

  /** Same row, same column or same diagonal. */
  predicate OnLine(cur: Square, d: Square)
  {
    d.col == cur.col || d.row == cur.row || Abs(d.col - cur.col) == Abs(d.row - cur.row)
  }

  /** The path test of the sliding pieces: from the neighbouring square in
      the direction of d, nothing stands before d. */
  predicate SlideClear(b: Occupancy, cur: Square, d: Square)
    requires OnBoard(cur) && OnBoard(d) && d != cur && OnLine(cur, d)
  {
    var dx := Sign(d.col - cur.col);
    var dy := Sign(d.row - cur.row);
    NothingInBetween(b, d, Square(cur.row + dy, cur.col + dx), dx, dy)
  }

  /** One step in any of the eight directions. */
  predicate Adjacent(a: Square, b: Square)
  {
    var dx := Abs(b.col - a.col);
    var dy := Abs(b.row - a.row);
    (dx == 1 && dy == 0) || (dx == 0 && dy == 1) || (dx == 1 && dy == 1)
  }

  // ---------------------------------------------------------------------
  // Pawn (Pawn.java)
  // ---------------------------------------------------------------------

  /** One row forward for colour c: +1 for White, -1 for Black. */
  predicate Forward(c: Color, from: Square, to: Square)
  {
    (c == Black && to.row == from.row - 1) || (c == White && to.row == from.row + 1)
  }

  /** Pawn.oneUp: one row forward in the same column onto an empty square. */
  predicate OneUp(s: State, p: PieceId, d: Square)
    requires WF(s) && p in s.info
  {
    var r := s.info[p];
    Forward(r.color, r.pos, d) && d.col == r.pos.col && d !in s.board
  }

  /** Pawn.twoUp: an unmoved pawn to row 3 (White) or 4 (Black) of its column,
      with the destination and the square jumped over both empty. The start
      row itself is not tested. */
  predicate TwoUp(s: State, p: PieceId, d: Square)
    requires WF(s) && p in s.info
  {
    var r := s.info[p];
    ((r.color == Black && d.row == 4) || (r.color == White && d.row == 3))
    && d.col == r.pos.col
    && d !in s.board
    && ((Square(d.row + 1, d.col) !in s.board && r.color == Black)
        || (Square(d.row - 1, d.col) !in s.board && r.color == White))
    && r.nMoves == 0
  }

  /** Pawn.capture: an enemy piece one column sideways and one row forward. */
  predicate PawnCapture(s: State, p: PieceId, d: Square)
    requires WF(s) && p in s.info
  {
    var r := s.info[p];
    d in s.board && s.info[s.board[d]].color != r.color
    && Abs(d.col - r.pos.col) == 1
    && Forward(r.color, r.pos, d)
  }

  /** Pawn.rightEnPassant (side = 1) and Pawn.leftEnPassant (side = -1),
      corrected: the square beside the pawn holds an enemy pawn whose
      double-step marker is the current totalTurns and is a real marker (at
      least 1, the value a double step on turn 0 leaves), and d is
      diagonally forward onto that pawn's column. The source compares the
      marker with totalTurns only (EnPassantBesideAsWritten), so the 0 of a
      pawn that never double-stepped passes while totalTurns is 0. */
  predicate EnPassantBeside(s: State, p: PieceId, d: Square, side: int)
    requires WF(s) && p in s.info
    requires side == 1 || side == -1
    requires 0 <= s.info[p].pos.col + side < 8
  {
    var r := s.info[p];
    var x := r.pos.row;
    var y := r.pos.col;
    var n := Square(x, y + side);
    n in s.board
    && s.info[s.board[n]].kind == Pawn
    && s.info[s.board[n]].color != r.color
    && s.info[s.board[n]].movedTwo == s.totalTurns
    && s.info[s.board[n]].movedTwo >= 1
    && ((d.row == x + 1 && r.color == White) || (d.row == x - 1 && r.color == Black))
    && d.col == y + side
  }

  /** Pawn.rightEnPassant and Pawn.leftEnPassant as written: the marker is
      compared with totalTurns and nothing else. */
  predicate EnPassantBesideAsWritten(s: State, p: PieceId, d: Square, side: int)
    requires WF(s) && p in s.info
    requires side == 1 || side == -1
    requires 0 <= s.info[p].pos.col + side < 8
  {
    var r := s.info[p];
    var x := r.pos.row;
    var y := r.pos.col;
    var n := Square(x, y + side);
    n in s.board
    && s.info[s.board[n]].kind == Pawn
    && s.info[s.board[n]].color != r.color
    && s.info[s.board[n]].movedTwo == s.totalTurns
    && ((d.row == x + 1 && r.color == White) || (d.row == x - 1 && r.color == Black))
    && d.col == y + side
  }

  /** Once a turn has been played the correction changes nothing: the two
      tests differ only while totalTurns is 0. */
  lemma EnPassantCorrectionAgrees(s: State, p: PieceId, d: Square, side: int)
    requires WF(s) && p in s.info && (side == 1 || side == -1) && 0 <= s.info[p].pos.col + side < 8
    ensures EnPassantBeside(s, p, d, side) ==> EnPassantBesideAsWritten(s, p, d, side)
    ensures s.totalTurns >= 1 ==> (EnPassantBeside(s, p, d, side) <==> EnPassantBesideAsWritten(s, p, d, side))
  {
  }

  /** Pawn.enPassant: a pawn on column 0 looks right only, one on column 7
      looks left only, any other looks both ways. */
  predicate EnPassant(s: State, p: PieceId, d: Square)
    requires WF(s) && p in s.info
  {
    var y := s.info[p].pos.col;
    if y == 0 then EnPassantBeside(s, p, d, 1)
    else if y == 7 then EnPassantBeside(s, p, d, -1)
    else EnPassantBeside(s, p, d, -1) || EnPassantBeside(s, p, d, 1)
  }

  /** Pawn.enPassant as written, on the source's marker test. */
  predicate EnPassantAsWritten(s: State, p: PieceId, d: Square)
    requires WF(s) && p in s.info
  {
    var y := s.info[p].pos.col;
    if y == 0 then EnPassantBesideAsWritten(s, p, d, 1)
    else if y == 7 then EnPassantBesideAsWritten(s, p, d, -1)
    else EnPassantBesideAsWritten(s, p, d, -1) || EnPassantBesideAsWritten(s, p, d, 1)
  }

  /** Every en passant the corrected test accepts, the source accepts too,
      and from the first turn on they accept the same moves. */
  lemma EnPassantAgrees(s: State, p: PieceId, d: Square)
    requires WF(s) && p in s.info
    ensures EnPassant(s, p, d) ==> EnPassantAsWritten(s, p, d)
    ensures s.totalTurns >= 1 ==> (EnPassant(s, p, d) <==> EnPassantAsWritten(s, p, d))
  {
    var y := s.info[p].pos.col;
    if y < 7 {
      EnPassantCorrectionAgrees(s, p, d, 1);
    }
    if y > 0 {
      EnPassantCorrectionAgrees(s, p, d, -1);
    }
  }

  /** An en passant destination is diagonally forward, and the pawn it
      passes stands beside the capturer on the destination's column. */
  lemma EnPassantShape(s: State, p: PieceId, d: Square)
    requires WF(s) && p in s.info && EnPassant(s, p, d)
    ensures var cur := s.info[p].pos;
            d.row == cur.row + (if s.info[p].color == White then 1 else -1)
            && (d.col == cur.col + 1 || d.col == cur.col - 1)
            && Square(cur.row, d.col) in s.board
            && s.info[s.board[Square(cur.row, d.col)]].kind == Pawn
            && s.info[s.board[Square(cur.row, d.col)]].color != s.info[p].color
  {
  }

  /** Pawn.isValidCapture. */
  predicate PawnAttacks(s: State, p: PieceId, d: Square)
    requires WF(s) && p in s.info
  {
    s.info[p].pos != d && (OneUp(s, p, d) || TwoUp(s, p, d) || PawnCapture(s, p, d) || EnPassant(s, p, d))
  }

  // ---------------------------------------------------------------------
  // Knight, Bishop, Rook, Queen
  // ---------------------------------------------------------------------

  /** Knight.isValidCapture. */
  predicate KnightAttacks(s: State, p: PieceId, d: Square)
    requires WF(s) && p in s.info
  {
    var cur := s.info[p].pos;
    cur != d
    && ((Abs(cur.row - d.row) == 2 && Abs(cur.col - d.col) == 1)
        || (Abs(cur.row - d.row) == 1 && Abs(cur.col - d.col) == 2))
    && EmptyOrEnemy(s, d, s.info[p].color)
  }

  /** Bishop.isValidCapture: same diagonal, clear path from the neighbouring
      square towards d, and d empty or enemy-held. */
  predicate BishopAttacks(s: State, p: PieceId, d: Square)
    requires WF(s) && p in s.info && OnBoard(d)
  {
    var cur := s.info[p].pos;
    d != cur
    && Abs(d.col - cur.col) == Abs(d.row - cur.row)
    && SlideClear(s.board, cur, d)
    && EmptyOrEnemy(s, d, s.info[p].color)
  }

  /** Rook.isValidCapture: same row or column, clear path, d empty or
      enemy-held. */
  predicate RookAttacks(s: State, p: PieceId, d: Square)
    requires WF(s) && p in s.info && OnBoard(d)
  {
    var cur := s.info[p].pos;
    var dirX := Sign(d.col - cur.col);
    var dirY := Sign(d.row - cur.row);
    cur != d
    && (dirX == 0 || dirY == 0)
    && SlideClear(s.board, cur, d)
    && EmptyOrEnemy(s, d, s.info[p].color)
  }

  /** Queen.isValidCapture: same row, column or diagonal, clear path, d empty
      or enemy-held. */
  predicate QueenAttacks(s: State, p: PieceId, d: Square)
    requires WF(s) && p in s.info && OnBoard(d)
  {
    var cur := s.info[p].pos;
    d != cur
    && ((d.col - cur.col == 0 || d.row - cur.row == 0) || Abs(d.col - cur.col) == Abs(d.row - cur.row))
    && SlideClear(s.board, cur, d)
    && EmptyOrEnemy(s, d, s.info[p].color)
  }

  // ---------------------------------------------------------------------
  // These tests read the board, the pieces' records and the turn counter,
  // and nothing else of the state
  // ---------------------------------------------------------------------

  /** Two states that agree on everything these tests read. */
  predicate SameView(s: State, t: State)
  {
    t.board == s.board && t.info == s.info && t.totalTurns == s.totalTurns
  }

  lemma PawnAttacksSame(s: State, t: State, p: PieceId, d: Square)
    requires WF(s) && WF(t) && SameView(s, t) && p in s.info
    ensures PawnAttacks(t, p, d) == PawnAttacks(s, p, d)
  {
  }

  lemma KnightAttacksSame(s: State, t: State, p: PieceId, d: Square)
    requires WF(s) && WF(t) && SameView(s, t) && p in s.info
    ensures KnightAttacks(t, p, d) == KnightAttacks(s, p, d)
  {
  }

  lemma BishopAttacksSame(s: State, t: State, p: PieceId, d: Square)
    requires WF(s) && WF(t) && SameView(s, t) && p in s.info && OnBoard(d)
    ensures BishopAttacks(t, p, d) == BishopAttacks(s, p, d)
  {
  }

  lemma RookAttacksSame(s: State, t: State, p: PieceId, d: Square)
    requires WF(s) && WF(t) && SameView(s, t) && p in s.info && OnBoard(d)
    ensures RookAttacks(t, p, d) == RookAttacks(s, p, d)
  {
  }

  lemma QueenAttacksSame(s: State, t: State, p: PieceId, d: Square)
    requires WF(s) && WF(t) && SameView(s, t) && p in s.info && OnBoard(d)
    ensures QueenAttacks(t, p, d) == QueenAttacks(s, p, d)
  {
  }

  lemma EnPassantSame(s: State, t: State, p: PieceId, d: Square)
    requires WF(s) && WF(t) && SameView(s, t) && p in s.info
    ensures EnPassant(t, p, d) == EnPassant(s, p, d)
  {
  }
}
