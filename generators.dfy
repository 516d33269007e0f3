/** getPossibleMoves of the six pieces and the two ray walkers of Piece
    (addDiagonalMoves, addOrthogonalMoves): the candidate squares a piece
    may move to, in the order the source lists them, before the legality
    filter. Each loop of the source is a method proved equal to a function
    that states the list; the lemmas relate those lists to the capture rules
    of module Rules. */
module Generators {
  import opened Util
  import opened Squares
  import opened Pieces
  import opened Rules

  // ---------------------------------------------------------------------
  // Rays that stop at the first occupied square
  // ---------------------------------------------------------------------

  function Min(a: int, b: int): int
  {
    if a <= b then a else b
  }

  /** How far a ray in direction (dx, dy) can go from cur before leaving the
      board: `Math.min(col, 7 - row)` and the like in the source. */
  function MaxSteps(cur: Square, dx: int, dy: int): (n: int)
    requires OnBoard(cur)
    ensures 0 <= n <= 8
  {
    Min(if dx == 1 then 7 - cur.col else if dx == -1 then cur.col else 8,
        if dy == 1 then 7 - cur.row else if dy == -1 then cur.row else 8)
  }

  /** The squares Ray(from, k) for i < k <= n, each added before it is
      tested, and the walk stops after the first occupied one. */
  function Walk(b: Occupancy, from: Square, dx: int, dy: int, i: int, n: int): seq<Square>
    decreases n - i
  {
    if i >= n then []
    else
      var sq := Ray(from, dx, dy, i + 1);
      [sq] + (if sq in b then [] else Walk(b, from, dx, dy, i + 1, n))
  }

  /** Every square strictly between steps i and k of the ray is empty. */
  predicate ClearBetween(b: Occupancy, from: Square, dx: int, dy: int, i: int, k: int)
  {
    forall j :: i < j < k ==> Ray(from, dx, dy, j) !in b
  }

  /** A square is on the walk exactly when it is a step k of the ray within
      the bound and every earlier step is empty. */
  lemma {:induction false} WalkMember(b: Occupancy, from: Square, dx: int, dy: int, i: int, n: int, sq: Square)
    requires i <= n
    ensures sq in Walk(b, from, dx, dy, i, n) <==>
            exists k :: i < k <= n && sq == Ray(from, dx, dy, k) && ClearBetween(b, from, dx, dy, i, k)
    decreases n - i
  {
    if i < n {
      var s0 := Ray(from, dx, dy, i + 1);
      var rest := Walk(b, from, dx, dy, i + 1, n);
      assert Walk(b, from, dx, dy, i, n) == [s0] + (if s0 in b then [] else rest);
      WalkMember(b, from, dx, dy, i + 1, n, sq);
      if sq in Walk(b, from, dx, dy, i, n) {
        if sq == s0 {
          assert ClearBetween(b, from, dx, dy, i, i + 1);
        } else {
          var k :| i + 1 < k <= n && sq == Ray(from, dx, dy, k) && ClearBetween(b, from, dx, dy, i + 1, k);
          assert ClearBetween(b, from, dx, dy, i, k);
        }
      }
      if exists k :: i < k <= n && sq == Ray(from, dx, dy, k) && ClearBetween(b, from, dx, dy, i, k) {
        var k :| i < k <= n && sq == Ray(from, dx, dy, k) && ClearBetween(b, from, dx, dy, i, k);
        if k > i + 1 {
          assert s0 !in b;
          assert ClearBetween(b, from, dx, dy, i + 1, k);
        }
      }
    }
  }

  /** A step of a ray stays on the board exactly up to MaxSteps. */
  lemma RayOnBoard(cur: Square, dx: int, dy: int, k: int)
    requires OnBoard(cur) && IsDirection(dx, dy) && k >= 0
    ensures OnBoard(Ray(cur, dx, dy, k)) <==> k <= MaxSteps(cur, dx, dy)
  {
  }

  /** The path test the sliding pieces make, started from the neighbouring
      square, says that every square strictly between cur and step k is
      empty. */
  lemma NeighbourPathClear(b: Occupancy, cur: Square, dx: int, dy: int, k: int)
    requires OnBoard(cur) && IsDirection(dx, dy) && k >= 1 && OnBoard(Ray(cur, dx, dy, k))
    ensures OnBoard(Square(cur.row + dy, cur.col + dx))
    ensures NothingInBetween(b, Ray(cur, dx, dy, k), Square(cur.row + dy, cur.col + dx), dx, dy)
            <==> ClearBetween(b, cur, dx, dy, 0, k)
  {
    var next := Square(cur.row + dy, cur.col + dx);
    RayStep(cur, dx, dy, k - 1);
    assert OnBoard(next) by {
      RayStep(cur, dx, dy, 0);
      assert Ray(cur, dx, dy, 1) == next;
    }
    NothingInBetweenClear(b, next, dx, dy, k - 1);
    RayShiftClear(b, cur, dx, dy, k);
  }

  /** The walk in direction (dx, dy) holds d exactly when d lies on that ray
      (the direction the sliding pieces compute by Sign) and the path test
      from the neighbouring square succeeds. */
  lemma OnRayIff(b: Occupancy, cur: Square, dx: int, dy: int, d: Square)
    requires OnBoard(cur) && OnBoard(d) && IsDirection(dx, dy)
    ensures d in Walk(b, cur, dx, dy, 0, MaxSteps(cur, dx, dy)) <==>
            (d != cur && Sign(d.col - cur.col) == dx && Sign(d.row - cur.row) == dy && OnLine(cur, d)
             && OnBoard(Square(cur.row + dy, cur.col + dx))
             && NothingInBetween(b, d, Square(cur.row + dy, cur.col + dx), dx, dy))
  {
    var n := MaxSteps(cur, dx, dy);
    WalkMember(b, cur, dx, dy, 0, n, d);
    if d in Walk(b, cur, dx, dy, 0, n) {
      var k :| 0 < k <= n && d == Ray(cur, dx, dy, k) && ClearBetween(b, cur, dx, dy, 0, k);
      RayOnBoard(cur, dx, dy, k);
      NeighbourPathClear(b, cur, dx, dy, k);
    }
    if d != cur && Sign(d.col - cur.col) == dx && Sign(d.row - cur.row) == dy && OnLine(cur, d) {
      var k := if dx != 0 then Abs(d.col - cur.col) else Abs(d.row - cur.row);
      assert d == Ray(cur, dx, dy, k);
      RayOnBoard(cur, dx, dy, k);
      NeighbourPathClear(b, cur, dx, dy, k);
    }
  }

  /** One ray of a sliding piece, as far as the board allows. */
  function RayMoves(b: Occupancy, cur: Square, dx: int, dy: int): seq<Square>
    requires OnBoard(cur)
  {
    Walk(b, cur, dx, dy, 0, MaxSteps(cur, dx, dy))
  }

  /** Piece.addDiagonalMoves: up-left, down-left, down-right, up-right. */
  function DiagonalMoves(b: Occupancy, cur: Square): seq<Square>
    requires OnBoard(cur)
  {
    RayMoves(b, cur, -1, 1) + RayMoves(b, cur, -1, -1) + RayMoves(b, cur, 1, -1) + RayMoves(b, cur, 1, 1)
  }

  /** Piece.addOrthogonalMoves: up the file, down the file, right along the
      rank, left along the rank. */
  function OrthogonalMoves(b: Occupancy, cur: Square): seq<Square>
    requires OnBoard(cur)
  {
    RayMoves(b, cur, 0, 1) + RayMoves(b, cur, 0, -1) + RayMoves(b, cur, 1, 0) + RayMoves(b, cur, -1, 0)
  }

  /** Whatever a ray lists lies in that ray's direction. */
  lemma InRayDirection(b: Occupancy, cur: Square, dx: int, dy: int, d: Square)
    requires OnBoard(cur) && IsDirection(dx, dy)
    ensures d in RayMoves(b, cur, dx, dy) ==>
            d != cur && Sign(d.col - cur.col) == dx && Sign(d.row - cur.row) == dy && OnLine(cur, d)
  {
    WalkMember(b, cur, dx, dy, 0, MaxSteps(cur, dx, dy), d);
  }

  /** One ray lists exactly the squares in its direction with a clear
      path. */
  lemma RayIff(b: Occupancy, cur: Square, dx: int, dy: int, d: Square)
    requires OnBoard(cur) && OnBoard(d) && IsDirection(dx, dy)
    ensures d in RayMoves(b, cur, dx, dy) <==>
            d != cur && Sign(d.col - cur.col) == dx && Sign(d.row - cur.row) == dy && OnLine(cur, d)
            && SlideClear(b, cur, d)
  {
    InRayDirection(b, cur, dx, dy, d);
    OnRayIff(b, cur, dx, dy, d);
  }

  /** The square d lies in the direction (dx, dy) from cur. */
  predicate Towards(cur: Square, d: Square, dx: int, dy: int)
  {
    Sign(d.col - cur.col) == dx && Sign(d.row - cur.row) == dy
  }

  /** A diagonal square other than cur lies in exactly one of the four
      diagonal directions. */
  lemma DiagonalDirections(cur: Square, d: Square)
    requires d != cur && Abs(d.col - cur.col) == Abs(d.row - cur.row)
    ensures Towards(cur, d, -1, 1) || Towards(cur, d, -1, -1) || Towards(cur, d, 1, -1) || Towards(cur, d, 1, 1)
  {
  }

  /** A square of the same row or column other than cur lies in exactly
      one of the four orthogonal directions. */
  lemma OrthogonalDirections(cur: Square, d: Square)
    requires d != cur && (d.col == cur.col || d.row == cur.row)
    ensures Towards(cur, d, 0, 1) || Towards(cur, d, 0, -1) || Towards(cur, d, 1, 0) || Towards(cur, d, -1, 0)
  {
  }

  /** A square listed by a diagonal ray is a diagonal square. */
  lemma DiagonalRay(b: Occupancy, cur: Square, dx: int, dy: int, d: Square)
    requires OnBoard(cur) && OnBoard(d) && dx != 0 && dy != 0 && IsDirection(dx, dy)
    ensures d in RayMoves(b, cur, dx, dy) <==>
            d != cur && Abs(d.col - cur.col) == Abs(d.row - cur.row) && Towards(cur, d, dx, dy) && SlideClear(b, cur, d)
  {
    RayIff(b, cur, dx, dy, d);
  }

  /** A square listed by an orthogonal ray is a square of the same row or
      column. */
  lemma OrthogonalRay(b: Occupancy, cur: Square, dx: int, dy: int, d: Square)
    requires OnBoard(cur) && OnBoard(d) && (dx == 0 || dy == 0) && IsDirection(dx, dy)
    ensures d in RayMoves(b, cur, dx, dy) <==>
            d != cur && (d.col == cur.col || d.row == cur.row) && Towards(cur, d, dx, dy) && SlideClear(b, cur, d)
  {
    RayIff(b, cur, dx, dy, d);
  }

  /** addDiagonalMoves lists exactly the diagonal squares with a clear path. */
  lemma DiagonalIff(b: Occupancy, cur: Square, d: Square)
    requires OnBoard(cur) && OnBoard(d)
    ensures d in DiagonalMoves(b, cur) <==>
            d != cur && Abs(d.col - cur.col) == Abs(d.row - cur.row) && SlideClear(b, cur, d)
  {
    DiagonalRay(b, cur, -1, 1, d);
    DiagonalRay(b, cur, -1, -1, d);
    DiagonalRay(b, cur, 1, -1, d);
    DiagonalRay(b, cur, 1, 1, d);
    if d != cur && Abs(d.col - cur.col) == Abs(d.row - cur.row) {
      DiagonalDirections(cur, d);
    }
  }

  /** A Bishop keeps its square colour: every square addDiagonalMoves lists
      has the parity of row plus column of cur. */
  lemma DiagonalKeepsColour(b: Occupancy, cur: Square, d: Square)
    requires OnBoard(cur) && d in DiagonalMoves(b, cur)
    ensures (d.row + d.col) % 2 == (cur.row + cur.col) % 2
  {
    DiagonalOnBoard(b, cur);
    DiagonalIff(b, cur, d);
    var dc, dr := d.col - cur.col, d.row - cur.row;
    assert dc == dr || dc == -dr;
    assert (d.row + d.col) == (cur.row + cur.col) + dr + dc;
  }

  /** addOrthogonalMoves lists exactly the squares of the same row or column
      with a clear path. */
  lemma OrthogonalIff(b: Occupancy, cur: Square, d: Square)
    requires OnBoard(cur) && OnBoard(d)
    ensures d in OrthogonalMoves(b, cur) <==>
            d != cur && (d.col == cur.col || d.row == cur.row) && SlideClear(b, cur, d)
  {
    OrthogonalRay(b, cur, 0, 1, d);
    OrthogonalRay(b, cur, 0, -1, d);
    OrthogonalRay(b, cur, 1, 0, d);
    OrthogonalRay(b, cur, -1, 0, d);
    if d != cur && (d.col == cur.col || d.row == cur.row) {
      OrthogonalDirections(cur, d);
    }
  }

  /** Bishop.isValidCapture holds exactly for the squares addDiagonalMoves
      lists that are empty or enemy-held. */
  lemma BishopMovesExact(s: State, p: PieceId, d: Square)
    requires WF(s) && p in s.info && OnBoard(d)
    ensures BishopAttacks(s, p, d) <==>
            d in DiagonalMoves(s.board, s.info[p].pos) && EmptyOrEnemy(s, d, s.info[p].color)
  {
    DiagonalIff(s.board, s.info[p].pos, d);
  }

  /** Rook.isValidCapture holds exactly for the squares addOrthogonalMoves
      lists that are empty or enemy-held. */
  lemma RookMovesExact(s: State, p: PieceId, d: Square)
    requires WF(s) && p in s.info && OnBoard(d)
    ensures RookAttacks(s, p, d) <==>
            d in OrthogonalMoves(s.board, s.info[p].pos) && EmptyOrEnemy(s, d, s.info[p].color)
  {
    OrthogonalIff(s.board, s.info[p].pos, d);
  }

  /** Queen.isValidCapture holds exactly for the squares the Queen's two
      walkers list that are empty or enemy-held. */
  lemma QueenMovesExact(s: State, p: PieceId, d: Square)
    requires WF(s) && p in s.info && OnBoard(d)
    ensures QueenAttacks(s, p, d) <==>
            d in DiagonalMoves(s.board, s.info[p].pos) + OrthogonalMoves(s.board, s.info[p].pos)
            && EmptyOrEnemy(s, d, s.info[p].color)
  {
    DiagonalIff(s.board, s.info[p].pos, d);
    OrthogonalIff(s.board, s.info[p].pos, d);
  }

  // ---------------------------------------------------------------------
  // The ray loops
  // ---------------------------------------------------------------------

  /** One step of a walk that has not reached its bound. */
  lemma WalkStep(b: Occupancy, from: Square, dx: int, dy: int, i: int, n: int)
    requires i < n
    ensures var sq := Ray(from, dx, dy, i + 1);
            Walk(b, from, dx, dy, i, n) == [sq] + (if sq in b then [] else Walk(b, from, dx, dy, i + 1, n))
  {
  }

  /** The invariant of a ray loop carried over one square: once the square
      is added, the list is complete if the square is occupied, and
      otherwise the rest of the walk completes it. */
  lemma WalkAdvance(b: Occupancy, from: Square, dx: int, dy: int, i: int, n: int, r: seq<Square>, target: seq<Square>)
    requires i < n && r + Walk(b, from, dx, dy, i, n) == target
    ensures var sq := Ray(from, dx, dy, i + 1);
            (sq in b ==> r + [sq] == target) && (sq !in b ==> (r + [sq]) + Walk(b, from, dx, dy, i + 1, n) == target)
  {
    var sq := Ray(from, dx, dy, i + 1);
    WalkStep(b, from, dx, dy, i, n);
    AppendAssoc(r, [sq], if sq in b then [] else Walk(b, from, dx, dy, i + 1, n));
    assert (r + [sq]) + [] == r + [sq];
  }

  /** One loop of addDiagonalMoves or addOrthogonalMoves: add the next
      square of the ray, and stop once it is occupied or the board ends. */
  method AddRay(b: Occupancy, cur: Square, dx: int, dy: int, moves: seq<Square>) returns (r: seq<Square>)
    requires OnBoard(cur)
    ensures r == moves + RayMoves(b, cur, dx, dy)
  {
    var n := MaxSteps(cur, dx, dy);
    r := moves;
    var i := 0;
    while i < n
      invariant 0 <= i <= n
      invariant r + Walk(b, cur, dx, dy, i, n) == moves + RayMoves(b, cur, dx, dy)
    {
      var sq := Ray(cur, dx, dy, i + 1);
      WalkAdvance(b, cur, dx, dy, i, n, r, moves + RayMoves(b, cur, dx, dy));
      r := r + [sq];
      if sq in b {
        break;
      }
      i := i + 1;
    }
  }

  /** Piece.addDiagonalMoves. */
  method AddDiagonalMoves(b: Occupancy, cur: Square, moves: seq<Square>) returns (r: seq<Square>)
    requires OnBoard(cur)
    ensures r == moves + DiagonalMoves(b, cur)
  {
    r := AddRay(b, cur, -1, 1, moves);
    r := AddRay(b, cur, -1, -1, r);
    r := AddRay(b, cur, 1, -1, r);
    r := AddRay(b, cur, 1, 1, r);
  }

  /** Piece.addOrthogonalMoves. */
  method AddOrthogonalMoves(b: Occupancy, cur: Square, moves: seq<Square>) returns (r: seq<Square>)
    requires OnBoard(cur)
    ensures r == moves + OrthogonalMoves(b, cur)
  {
    r := AddRay(b, cur, 0, 1, moves);
    r := AddRay(b, cur, 0, -1, r);
    r := AddRay(b, cur, 1, 0, r);
    r := AddRay(b, cur, -1, 0, r);
  }

  // ---------------------------------------------------------------------
  // Pawn, Knight, Rook and King
  // ---------------------------------------------------------------------

  /** `[sq]` when sq is on the board, else nothing: the bounds tests that
      guard each `moves.add`. */
  function IfOnBoard(sq: Square): seq<Square>
  {
    if OnBoard(sq) then [sq] else []
  }

  /** Pawn.getPossibleMoves: the double step first (from row 1 for White,
      row 6 for Black), then one step forward, then the two forward
      diagonals. */
  function PawnMoves(c: Color, cur: Square): seq<Square>
  {
    var f := if c == White then 1 else -1;
    var start := if c == White then 1 else 6;
    (if cur.row == start then IfOnBoard(Square(cur.row + 2 * f, cur.col)) else [])
    + IfOnBoard(Square(cur.row + f, cur.col))
    + IfOnBoard(Square(cur.row + f, cur.col - 1))
    + IfOnBoard(Square(cur.row + f, cur.col + 1))
  }

  /** The squares of l that are on the board, in order. */
  function OnBoardOnly(l: seq<Square>): (r: seq<Square>)
    ensures forall x :: x in r <==> x in l && OnBoard(x)
  {
    if l == [] then []
    else (if OnBoard(l[0]) then [l[0]] else []) + OnBoardOnly(l[1..])
  }

  /** Keeping the on-board squares of a list without repeats leaves a
      list without repeats, no longer than it was. */
  lemma {:induction false} OnBoardOnlyNoDup(l: seq<Square>)
    requires NoDup(l)
    ensures NoDup(OnBoardOnly(l)) && |OnBoardOnly(l)| <= |l|
  {
    if l != [] {
      var h := if OnBoard(l[0]) then [l[0]] else [];
      assert NoDup(l[1..]) by {
        forall i, j | 0 <= i < j < |l[1..]|
          ensures l[1..][i] != l[1..][j]
        {
          assert l[1..][i] == l[i + 1] && l[1..][j] == l[j + 1];
        }
      }
      assert l[0] !in l[1..];
      OnBoardOnlyNoDup(l[1..]);
      NoDupAppend(h, OnBoardOnly(l[1..]));
    }
  }

  /** The eight jumps in the order Knight.getPossibleMoves tries them. */
  function KnightTargets(cur: Square): seq<Square>
  {
    var r, c := cur.row, cur.col;
    [Square(r + 2, c + 1), Square(r + 2, c - 1), Square(r - 2, c + 1), Square(r - 2, c - 1),
     Square(r + 1, c + 2), Square(r + 1, c - 2), Square(r - 1, c + 2), Square(r - 1, c - 2)]
  }

  /** Knight.getPossibleMoves: each jump that stays on the board. */
  function KnightMoves(cur: Square): seq<Square>
  {
    OnBoardOnly(KnightTargets(cur))
  }

  /** The knight's jump. */
  predicate KnightJump(cur: Square, d: Square)
  {
    (Abs(cur.row - d.row) == 2 && Abs(cur.col - d.col) == 1)
    || (Abs(cur.row - d.row) == 1 && Abs(cur.col - d.col) == 2)
  }

  /** getPossibleMoves of the Knight lists exactly its jumps that stay on
      the board. */
  lemma KnightMovesIff(cur: Square, d: Square)
    ensures d in KnightMoves(cur) <==> OnBoard(d) && KnightJump(cur, d)
  {
    assert KnightJump(cur, d) <==> d in KnightTargets(cur) by {
      var dr, dc := d.row - cur.row, d.col - cur.col;
      if KnightJump(cur, d) {
        assert (dr == 2 || dr == -2 || dr == 1 || dr == -1) && (dc == 2 || dc == -2 || dc == 1 || dc == -1);
      }
    }
  }

  /** Knight.getPossibleMoves lists no square twice, and at most eight. */
  lemma KnightMovesNoDup(cur: Square)
    ensures NoDup(KnightMoves(cur)) && |KnightMoves(cur)| <= 8
  {
    OnBoardOnlyNoDup(KnightTargets(cur));
  }

  /** The first n rounds of the Rook's loop: round i adds (i, col) unless i
      is the Rook's row, then (row, i) unless i is its column. */
  function RookRounds(cur: Square, n: nat): seq<Square>
  {
    if n == 0 then []
    else
      var i := n - 1;
      RookRounds(cur, i)
      + (if i != cur.row then [Square(i, cur.col)] else [])
      + (if i != cur.col then [Square(cur.row, i)] else [])
  }

  /** Rook.getPossibleMoves: every other square of its row and column,
      whatever stands on them. */
  function RookMoves(cur: Square): seq<Square>
  {
    RookRounds(cur, 8)
  }

  lemma {:induction false} RookRoundsIff(cur: Square, n: nat, d: Square)
    ensures d in RookRounds(cur, n) <==>
            (0 <= d.row < n && d.col == cur.col && d.row != cur.row)
            || (0 <= d.col < n && d.row == cur.row && d.col != cur.col)
  {
    if n > 0 {
      RookRoundsIff(cur, n - 1, d);
    }
  }

  /** The Rook's candidates are exactly the other squares of its row and
      column. */
  lemma RookMovesIff(cur: Square, d: Square)
    requires OnBoard(cur)
    ensures d in RookMoves(cur) <==> OnBoard(d) && d != cur && (d.row == cur.row || d.col == cur.col)
  {
    RookRoundsIff(cur, 8, d);
  }

  /** After n rounds the Rook's loop has listed two squares a round, less
      one once its own row and one once its own column have come up, and
      none twice. */
  lemma {:induction false} RookRoundsCount(cur: Square, n: nat)
    requires OnBoard(cur) && n <= 8
    ensures |RookRounds(cur, n)| == 2 * n - (if cur.row < n then 1 else 0) - (if cur.col < n then 1 else 0)
    ensures NoDup(RookRounds(cur, n))
  {
    if n > 0 {
      var i := n - 1;
      RookRoundsCount(cur, i);
      var a := if i != cur.row then [Square(i, cur.col)] else [];
      var c := if i != cur.col then [Square(cur.row, i)] else [];
      forall d | d in a + c
        ensures d !in RookRounds(cur, i)
      {
        RookRoundsIff(cur, i, d);
      }
      NoDupAppend(a, c);
      NoDupAppend(RookRounds(cur, i), a + c);
      assert RookRounds(cur, n) == RookRounds(cur, i) + (a + c);
    }
  }

  /** The Rook always has fourteen candidates, none listed twice. */
  lemma RookMovesCount(cur: Square)
    requires OnBoard(cur)
    ensures |RookMoves(cur)| == 14 && NoDup(RookMoves(cur))
  {
    RookRoundsCount(cur, 8);
  }

  /** Rook.getPossibleMoves as the loop the source runs. */
  method RookPossibleMoves(cur: Square) returns (moves: seq<Square>)
    ensures moves == RookMoves(cur)
  {
    moves := [];
    for i := 0 to 8
      invariant moves == RookRounds(cur, i)
    {
      if i != cur.row {
        moves := moves + [Square(i, cur.col)];
      }
      if i != cur.col {
        moves := moves + [Square(cur.row, i)];
      }
    }
  }

  /** The first m rounds (i = -1, 0, 1) of one of the King's column loops:
      column col + dc, skipping rows off the board and, in its own column,
      its own square. */
  function KingColumn(cur: Square, dc: int, m: nat): seq<Square>
  {
    if m == 0 then []
    else
      var i := m - 2;
      KingColumn(cur, dc, m - 1)
      + (if OnBoard(Square(cur.row + i, cur.col + dc)) && (dc != 0 || i != 0)
         then [Square(cur.row + i, cur.col + dc)] else [])
  }

  /** King.getPossibleMoves: its own column, the column to the right, the
      column to the left, then two squares right and two squares left. */
  function KingMoves(cur: Square): seq<Square>
  {
    KingColumn(cur, 0, 3) + KingColumn(cur, 1, 3) + KingColumn(cur, -1, 3)
    + IfOnBoard(Square(cur.row, cur.col + 2)) + IfOnBoard(Square(cur.row, cur.col - 2))
  }

  /** One column loop lists the on-board squares of column col + dc within
      one row of the King, other than the King's own. */
  lemma KingColumnIff(cur: Square, dc: int, d: Square)
    requires OnBoard(cur)
    ensures d in KingColumn(cur, dc, 3) <==>
            OnBoard(d) && d.col == cur.col + dc && -1 <= d.row - cur.row <= 1 && (dc != 0 || d.row != cur.row)
  {
    assert KingColumn(cur, dc, 3) == KingColumn(cur, dc, 2) + KingColumn(cur, dc, 3)[|KingColumn(cur, dc, 2)|..];
    assert KingColumn(cur, dc, 1) == KingColumn(cur, dc, 0) + (if OnBoard(Square(cur.row - 1, cur.col + dc)) then [Square(cur.row - 1, cur.col + dc)] else []);
  }

  /** The King's candidates are exactly its one-step squares and the two
      squares two columns away on its row, when on the board. */
  lemma KingMovesIff(cur: Square, d: Square)
    requires OnBoard(cur)
    ensures d in KingMoves(cur) <==>
            OnBoard(d) && (Adjacent(cur, d) || (d.row == cur.row && Abs(d.col - cur.col) == 2))
  {
    KingColumnIff(cur, 0, d);
    KingColumnIff(cur, 1, d);
    KingColumnIff(cur, -1, d);
  }

  /** A column loop adds at most one square a round, and none in the
      round of the King's own square. */
  lemma {:induction false} KingColumnLength(cur: Square, dc: int, m: nat)
    ensures |KingColumn(cur, dc, m)| <= m
    ensures dc == 0 && m >= 2 ==> |KingColumn(cur, dc, m)| <= m - 1
  {
    if m > 0 {
      KingColumnLength(cur, dc, m - 1);
    }
  }

  /** King.getPossibleMoves lists at most ten squares. */
  lemma KingMovesLength(cur: Square)
    ensures |KingMoves(cur)| <= 10
  {
    KingColumnLength(cur, 0, 3);
    KingColumnLength(cur, 1, 3);
    KingColumnLength(cur, -1, 3);
  }

  /** One column loop of King.getPossibleMoves. A side column off the board
      ends the loop at once (`break`). */
  method AddKingColumn(cur: Square, dc: int, moves: seq<Square>) returns (r: seq<Square>)
    requires OnBoard(cur) && -1 <= dc <= 1
    ensures r == moves + KingColumn(cur, dc, 3)
  {
    r := moves;
    for i := -1 to 2
      invariant r == moves + KingColumn(cur, dc, i + 1)
    {
      if (dc == 1 && cur.col == 7) || (dc == -1 && cur.col == 0) {
        assert KingColumn(cur, dc, 3) == [];
        break;
      }
      if i + cur.row < 0 || i + cur.row > 7 || (dc == 0 && i == 0) {
        continue;
      }
      r := r + [Square(cur.row + i, cur.col + dc)];
    }
  }

  /** King.getPossibleMoves as the loops the source runs. */
  method KingPossibleMoves(cur: Square) returns (moves: seq<Square>)
    requires OnBoard(cur)
    ensures moves == KingMoves(cur)
  {
    moves := AddKingColumn(cur, 0, []);
    moves := AddKingColumn(cur, 1, moves);
    moves := AddKingColumn(cur, -1, moves);
    ghost var columns := moves;
    ghost var right := IfOnBoard(Square(cur.row, cur.col + 2));
    ghost var left := IfOnBoard(Square(cur.row, cur.col - 2));
    if cur.col + 2 < 8 {
      moves := moves + [Square(cur.row, cur.col + 2)];
      assert right == [Square(cur.row, cur.col + 2)];
    } else {
      assert right == [] && moves == moves + right;
    }
    ghost var withRight := moves;
    if cur.col - 2 >= 0 {
      moves := moves + [Square(cur.row, cur.col - 2)];
      assert left == [Square(cur.row, cur.col - 2)];
    } else {
      assert left == [] && moves == moves + left;
    }
    assert [] + KingColumn(cur, 0, 3) == KingColumn(cur, 0, 3);
  }

  // ---------------------------------------------------------------------
  // getPossibleMoves of every piece
  // ---------------------------------------------------------------------

  /** The diagonal rays stay on the board. */
  lemma DiagonalOnBoard(b: Occupancy, cur: Square)
    requires OnBoard(cur)
    ensures forall d :: d in DiagonalMoves(b, cur) ==> OnBoard(d)
  {
    RayMovesOnBoard(b, cur, -1, 1);
    RayMovesOnBoard(b, cur, -1, -1);
    RayMovesOnBoard(b, cur, 1, -1);
    RayMovesOnBoard(b, cur, 1, 1);
  }

  /** The orthogonal rays stay on the board. */
  lemma OrthogonalOnBoard(b: Occupancy, cur: Square)
    requires OnBoard(cur)
    ensures forall d :: d in OrthogonalMoves(b, cur) ==> OnBoard(d)
  {
    RayMovesOnBoard(b, cur, 0, 1);
    RayMovesOnBoard(b, cur, 0, -1);
    RayMovesOnBoard(b, cur, 1, 0);
    RayMovesOnBoard(b, cur, -1, 0);
  }

  /** The candidate squares of piece p, by its class; none lies off the
      board (the bounds tests of every generator). */
  function PossibleMoves(s: State, p: PieceId): (r: seq<Square>)
    requires WF(s) && p in s.info
    ensures forall d :: d in r ==> OnBoard(d)
  {
    var r := s.info[p];
    match r.kind
    case Pawn => PawnMoves(r.color, r.pos)
    case Knight => KnightMoves(r.pos)
    case Bishop =>
      DiagonalOnBoard(s.board, r.pos);
      DiagonalMoves(s.board, r.pos)
    case Rook =>
      assert forall d :: d in RookMoves(r.pos) ==> OnBoard(d) by {
        forall d | d in RookMoves(r.pos) ensures OnBoard(d) {
          RookMovesIff(r.pos, d);
        }
      }
      RookMoves(r.pos)
    case Queen =>
      DiagonalOnBoard(s.board, r.pos);
      OrthogonalOnBoard(s.board, r.pos);
      DiagonalMoves(s.board, r.pos) + OrthogonalMoves(s.board, r.pos)
    case King =>
      assert forall d :: d in KingMoves(r.pos) ==> OnBoard(d) by {
        forall d | d in KingMoves(r.pos) ensures OnBoard(d) {
          KingMovesIff(r.pos, d);
        }
      }
      KingMoves(r.pos)
  }

  /** getPossibleMoves as the source runs it. */
  method GetPossibleMoves(s: State, p: PieceId) returns (moves: seq<Square>)
    requires WF(s) && p in s.info
    ensures moves == PossibleMoves(s, p)
  {
    var r := s.info[p];
    match r.kind
    case Pawn => moves := PawnMoves(r.color, r.pos);
    case Knight => moves := KnightMoves(r.pos);
    case Bishop => moves := AddDiagonalMoves(s.board, r.pos, []);
    case Rook => moves := RookPossibleMoves(r.pos);
    case Queen =>
      moves := AddDiagonalMoves(s.board, r.pos, []);
      moves := AddOrthogonalMoves(s.board, r.pos, moves);
    case King => moves := KingPossibleMoves(r.pos);
  }

  /** Every square a ray lists is on the board. */
  lemma RayMovesOnBoard(b: Occupancy, cur: Square, dx: int, dy: int)
    requires OnBoard(cur) && IsDirection(dx, dy)
    ensures forall d :: d in RayMoves(b, cur, dx, dy) ==> OnBoard(d)
  {
    forall d | d in RayMoves(b, cur, dx, dy)
      ensures OnBoard(d)
    {
      WalkMember(b, cur, dx, dy, 0, MaxSteps(cur, dx, dy), d);
      var k :| 0 < k <= MaxSteps(cur, dx, dy) && d == Ray(cur, dx, dy, k) && ClearBetween(b, cur, dx, dy, 0, k);
      RayOnBoard(cur, dx, dy, k);
    }
  }

  /** Every square a Pawn may capture on or advance to is among its
      candidates, provided an unmoved Pawn stands on its starting row (the
      double step is listed only from there, while Pawn.twoUp checks the
      move count instead). */
  lemma PawnCandidates(s: State, p: PieceId, d: Square)
    requires WF(s) && p in s.info && s.info[p].kind == Pawn && OnBoard(d)
    requires s.info[p].nMoves == 0 ==> s.info[p].pos.row == (if s.info[p].color == White then 1 else 6)
    requires PawnAttacks(s, p, d)
    ensures d in PossibleMoves(s, p)
  {
    if EnPassant(s, p, d) {
      EnPassantShape(s, p, d);
    }
  }

  /** Every square a Knight, Bishop, Rook or Queen may capture on is among
      its candidates. */
  lemma SliderCandidates(s: State, p: PieceId, d: Square)
    requires WF(s) && p in s.info && OnBoard(d)
    requires match s.info[p].kind
             case Knight => KnightAttacks(s, p, d)
             case Bishop => BishopAttacks(s, p, d)
             case Rook => RookAttacks(s, p, d)
             case Queen => QueenAttacks(s, p, d)
             case _ => false
    ensures d in PossibleMoves(s, p)
  {
    var r := s.info[p];
    match r.kind
    case Knight => KnightMovesIff(r.pos, d);
    case Bishop => BishopMovesExact(s, p, d);
    case Rook => RookMovesIff(r.pos, d);
    case Queen => QueenMovesExact(s, p, d);
  }
}
