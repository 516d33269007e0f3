/** Game.inCheck and Game.getKingPosition, and the King's isValidCapture with
    its castling tests (King.java). Castling asks whether the King's path is
    safe by trial moves, and each trial asks inCheck again, so these
    functions are mutually recursive. A trial move of a King onto an empty
    square or onto its own square is undone exactly by moveBack
    (TrialRestores), so the model evaluates each trial on the moved state
    without the moveBack. */
module Attacks {
  import opened Util
  import opened Squares
  import opened Pieces
  import opened Rules
  import opened Moves

  /** The recursion measure: the number of squares holding an unmoved piece.
      Every trial move is made by an unmoved King and lowers it. */
  function Unmoved(s: State): nat
  {
    |UnmovedSquares(s)|
  }

  // ---------------------------------------------------------------------
  // Game.getKingPosition
  // ---------------------------------------------------------------------

  /** The first King of colour c in ps, searched from index i. */
  function FirstKing(s: State, ps: seq<PieceId>, c: Color, i: nat): (r: Option<PieceId>)
    requires forall id :: id in ps ==> id in s.info
    requires i <= |ps|
    ensures r.Some? ==> exists j :: i <= j < |ps| && ps[j] == r.value
    ensures r.Some? ==> s.info[r.value].kind == King && s.info[r.value].color == c
    ensures r.None? <==> forall j :: i <= j < |ps| ==> !(s.info[ps[j]].kind == King && s.info[ps[j]].color == c)
    decreases |ps| - i
  {
    if i == |ps| then None
    else if s.info[ps[i]].color == c && s.info[ps[i]].kind == King then Some(ps[i])
    else FirstKing(s, ps, c, i + 1)
  }

  /** The King object getKingPosition(c) finds: the first King of colour c
      on the roster. */
  function KingOf(s: State, c: Color): (r: Option<PieceId>)
    requires WF(s)
    ensures r.Some? ==> r.value in s.pieces && s.info[r.value].kind == King && s.info[r.value].color == c
    ensures r.None? <==> forall id :: id in s.pieces ==> !(s.info[id].kind == King && s.info[id].color == c)
  {
    FirstKing(s, s.pieces, c, 0)
  }

  /** Game.getKingPosition(c): that King's square, or None (null) when the
      roster holds no King of colour c. */
  function KingPosition(s: State, c: Color): (r: Option<Square>)
    requires WF(s)
    ensures r.Some? ==> OnBoard(r.value)
    ensures r.Some? <==> KingOf(s, c).Some?
  {
    match KingOf(s, c)
    case None => None
    case Some(k) => Some(s.info[k].pos)
  }

  // ---------------------------------------------------------------------
  // Game.inCheck and the recursion through the King's castling tests
  // ---------------------------------------------------------------------

  /** Game.inCheck(c): some roster piece of the other colour can capture on
      the square of c's King. Without a King of colour c the source
      dereferences null; the model answers false. */
  predicate InCheck(s: State, c: Color)
    requires WF(s)
    decreases Unmoved(s), 5, 0
  {
    match KingPosition(s, c)
    case None => false
    case Some(k) =>
      exists i :: 0 <= i < |s.pieces| && s.info[s.pieces[i]].color != c && IsValidCapture(s, s.pieces[i], k)
  }

  /** Piece.isValidCapture, dispatched on the class of the piece. */
  predicate IsValidCapture(s: State, p: PieceId, d: Square)
    requires WF(s) && p in s.info && OnBoard(d)
    decreases Unmoved(s), 4, 0
  {
    if s.info[p].kind == King then KingCaptures(s, p, d) else Threatens(s, p, d)
  }

  /** King.isValidCapture: `curPos != newPos && (one step | castling long |
      castling short) && (newPos empty or enemy-held)`; Java's `|` binds
      tighter than `&&`. */
  predicate KingCaptures(s: State, p: PieceId, d: Square)
    requires WF(s) && p in s.info && OnBoard(d)
    decreases Unmoved(s), 3, 0
  {
    var cur := s.info[p].pos;
    cur != d
    && (Adjacent(cur, d) || CastlingLong(s, p, d) || CastlingShort(s, p, d))
    && EmptyOrEnemy(s, d, s.info[p].color)
  }

  /** King.isCastlingShort: the occupant of the King's square and of column 7
      of its row are both unmoved, d is column 6 of that row, the squares from
      the King's right-hand neighbour up to column 7 are empty, and the King
      is safe on every square from column 6 back to its own. A King on column
      7 makes the source index column 8 and throw; the model answers false. */
  predicate CastlingShort(s: State, p: PieceId, d: Square)
    requires WF(s) && p in s.info && OnBoard(d)
    decreases Unmoved(s), 2, 0
  {
    var cur := s.info[p].pos;
    var corner := Square(cur.row, 7);
    OccupantUnmoved(s, p)
    && corner in s.board && s.info[s.board[corner]].nMoves == 0
    && d.row == cur.row && d.col == 6
    && cur.col + 1 <= 7
    && NothingInBetween(s.board, corner, Square(cur.row, cur.col + 1), 1, 0)
    && NoInterference(s, p, cur, Square(cur.row, 6))
  }

  /** King.isCastlingLong: the mirror image towards column 0 with d on column
      2; the King must be safe on every square from its own back to column 2.
      A King on column 0 or 1 makes the source index column -1 and throw; the
      model answers false. */
  predicate CastlingLong(s: State, p: PieceId, d: Square)
    requires WF(s) && p in s.info && OnBoard(d)
    decreases Unmoved(s), 2, 0
  {
    var cur := s.info[p].pos;
    var corner := Square(cur.row, 0);
    OccupantUnmoved(s, p)
    && corner in s.board && s.info[s.board[corner]].nMoves == 0
    && d.row == cur.row && d.col == 2
    && cur.col >= 2
    && NothingInBetween(s.board, corner, Square(cur.row, cur.col - 1), -1, 0)
    && NoInterference(s, p, Square(cur.row, 2), cur)
  }

  /** King.noInterference(a, b): the loop makes the trial move to b, then to
      each square one column further left, down to a, and fails at the first
      unsafe square; its answer is that every square from a to b is safe. */
  predicate NoInterference(s: State, p: PieceId, a: Square, b: Square)
    requires WF(s) && p in s.info && OccupantUnmoved(s, p)
    requires OnBoard(a) && OnBoard(b) && a.row == b.row && a.col <= b.col
    decreases Unmoved(s), 1, 0
  {
    forall col :: a.col <= col <= b.col ==> TrialSafe(s, p, Square(a.row, col))
  }

  /** Piece.isValidMove as the King calls it for castling: after moving to
      sq, the side to move is not in check. */
  predicate TrialSafe(s: State, p: PieceId, sq: Square)
    requires WF(s) && p in s.info && OccupantUnmoved(s, p) && OnBoard(sq)
    decreases Unmoved(s), 0, 0
  {
    MoveKeepsWF(s, p, sq);
    MoveShrinksUnmoved(s, p, sq);
    !InCheck(Move(s, p, sq).state, s.turn)
  }

  // ---------------------------------------------------------------------
  // Why the trial moves may be evaluated without their moveBack
  // ---------------------------------------------------------------------

  /** The path test of isCastlingShort leaves every square right of the King
      up to column 6 empty. */
  lemma ShortPathClear(s: State, p: PieceId)
    requires WF(s) && p in s.info
    requires var cur := s.info[p].pos;
             cur.col + 1 <= 7 && NothingInBetween(s.board, Square(cur.row, 7), Square(cur.row, cur.col + 1), 1, 0)
    ensures var cur := s.info[p].pos;
            forall x :: cur.col < x <= 6 ==> Square(cur.row, x) !in s.board
  {
    var cur := s.info[p].pos;
    var start := Square(cur.row, cur.col + 1);
    assert Ray(start, 1, 0, 6 - cur.col) == Square(cur.row, 7);
    NothingInBetweenClear(s.board, start, 1, 0, 6 - cur.col);
    forall x | cur.col < x <= 6
      ensures Square(cur.row, x) !in s.board
    {
      assert Ray(start, 1, 0, x - cur.col - 1) == Square(cur.row, x);
    }
  }

  /** The path test of isCastlingLong leaves every square left of the King
      down to column 1 empty. */
  lemma LongPathClear(s: State, p: PieceId)
    requires WF(s) && p in s.info
    requires var cur := s.info[p].pos;
             cur.col >= 2 && NothingInBetween(s.board, Square(cur.row, 0), Square(cur.row, cur.col - 1), -1, 0)
    ensures var cur := s.info[p].pos;
            forall x :: 1 <= x < cur.col ==> Square(cur.row, x) !in s.board
  {
    var cur := s.info[p].pos;
    var start := Square(cur.row, cur.col - 1);
    assert Ray(start, -1, 0, cur.col - 1) == Square(cur.row, 0);
    NothingInBetweenClear(s.board, start, -1, 0, cur.col - 1);
    forall x | 1 <= x < cur.col
      ensures Square(cur.row, x) !in s.board
    {
      assert Ray(start, -1, 0, cur.col - 1 - x) == Square(cur.row, x);
    }
  }

  /** Castling never lands on an occupied square other than the King's own:
      the squares the King crosses are empty. */
  lemma CastlingTargetEmpty(s: State, p: PieceId, d: Square)
    requires WF(s) && p in s.info && OnBoard(d)
    requires CastlingShort(s, p, d) || CastlingLong(s, p, d)
    requires d != s.info[p].pos
    ensures d !in s.board
  {
    if CastlingShort(s, p, d) {
      ShortPathClear(s, p);
    } else {
      LongPathClear(s, p);
    }
  }

  /** A trial move of a King standing on its own square, onto an empty
      square or onto that same square, captures nothing that leaves the
      roster, is not en passant, and moveBack restores the whole state. */
  lemma TrialRestores(s: State, p: PieceId, sq: Square)
    requires WF(s) && p in s.info && s.info[p].kind == King && OnBoard(sq)
    requires At(s, s.info[p].pos) == Some(p)
    requires sq == s.info[p].pos || sq !in s.board
    ensures var m := Move(s, p, sq);
            !m.enPassant && (m.captured == None || m.captured == Some(p))
            && m.state.pieces == s.pieces && m.state.removed == s.removed
            && MoveBack(m.state, p, s.info[p].pos, m.captured, m.enPassant) == s
  {
    MoveParts(s, p, sq);
    BoardRoundTrip(s.board, p, s.info[p].pos, sq, false);
    InfoRoundTrip(s.info, p, sq);
  }

  // ---------------------------------------------------------------------
  // A non-recursive reference for attacks on an occupied square
  // ---------------------------------------------------------------------

  /** A King's one-step capture. */
  predicate KingStep(s: State, p: PieceId, d: Square)
    requires WF(s) && p in s.info
  {
    var cur := s.info[p].pos;
    cur != d && Adjacent(cur, d) && EmptyOrEnemy(s, d, s.info[p].color)
  }

  /** isValidCapture with castling left out: no trial moves, no recursion. */
  predicate Threatens(s: State, p: PieceId, d: Square)
    requires WF(s) && p in s.info && OnBoard(d)
  {
    match s.info[p].kind
    case Pawn => PawnAttacks(s, p, d)
    case Knight => KnightAttacks(s, p, d)
    case Bishop => BishopAttacks(s, p, d)
    case Rook => RookAttacks(s, p, d)
    case Queen => QueenAttacks(s, p, d)
    case King => KingStep(s, p, d)
  }

  /** On an occupied square isValidCapture is the non-recursive test. */
  lemma CaptureOnOccupied(s: State, p: PieceId, d: Square)
    requires WF(s) && p in s.info && OnBoard(d) && d in s.board
    ensures IsValidCapture(s, p, d) <==> Threatens(s, p, d)
  {
    if s.info[p].kind == King && s.info[p].pos != d {
      if CastlingShort(s, p, d) || CastlingLong(s, p, d) {
        CastlingTargetEmpty(s, p, d);
      }
    }
  }

  /** When c's King stands on the board, inCheck(c) is true exactly when an
      enemy roster piece threatens the King's square without castling. */
  lemma InCheckIff(s: State, c: Color)
    requires WF(s) && KingPosition(s, c).Some? && KingPosition(s, c).value in s.board
    ensures InCheck(s, c) <==>
            exists q :: q in s.pieces && s.info[q].color != c && Threatens(s, q, KingPosition(s, c).value)
  {
    var k := KingPosition(s, c).value;
    forall q | q in s.pieces
      ensures IsValidCapture(s, q, k) <==> Threatens(s, q, k)
    {
      CaptureOnOccupied(s, q, k);
    }
    if InCheck(s, c) {
      var i :| 0 <= i < |s.pieces| && s.info[s.pieces[i]].color != c && IsValidCapture(s, s.pieces[i], k);
      assert Threatens(s, s.pieces[i], k);
    }
    if exists q :: q in s.pieces && s.info[q].color != c && Threatens(s, q, k) {
      var q :| q in s.pieces && s.info[q].color != c && Threatens(s, q, k);
      var i :| 0 <= i < |s.pieces| && s.pieces[i] == q;
      assert IsValidCapture(s, s.pieces[i], k);
    }
  }

  // ---------------------------------------------------------------------
  // The order of the roster does not matter to inCheck
  //
  // A trial move followed by moveBack may put a captured piece back at the
  // end of `pieces`. inCheck reads the roster only through membership and
  // getKingPosition, so with at most one King per colour on the roster its
  // answer does not change.
  // ---------------------------------------------------------------------

  /** The two states differ at most in the order of the roster. */
  predicate SameButOrder(s: State, t: State)
  {
    t == s.(pieces := t.pieces) && multiset(t.pieces) == multiset(s.pieces)
  }

  /** At most one King of each colour is on the roster. */
  predicate KingsUnique(s: State)
    requires WF(s)
  {
    forall a, b ::
      (a in s.pieces && b in s.pieces && s.info[a].kind == King && s.info[b].kind == King
       && s.info[a].color == s.info[b].color) ==> a == b
  }

  lemma SameButOrderWF(s: State, t: State)
    requires WF(s) && SameButOrder(s, t)
    ensures WF(t) && (forall id :: id in t.pieces <==> id in s.pieces)
    ensures Unmoved(t) == Unmoved(s)
  {
    forall id ensures id in t.pieces <==> id in s.pieces {
      assert id in t.pieces <==> id in multiset(t.pieces);
      assert id in s.pieces <==> id in multiset(s.pieces);
    }
  }

  lemma KingOfSame(s: State, t: State, c: Color)
    requires WF(s) && SameButOrder(s, t) && KingsUnique(s)
    ensures WF(t) && KingOf(t, c) == KingOf(s, c)
  {
    SameButOrderWF(s, t);
  }

  lemma RosterAfterCaptureSame(a: seq<PieceId>, b: seq<PieceId>, c: Option<PieceId>, ep: bool, takes: bool)
    requires multiset(a) == multiset(b) && (takes ==> c.Some?)
    ensures multiset(RosterAfterCapture(a, c, ep, takes)) == multiset(RosterAfterCapture(b, c, ep, takes))
  {
    if ep && c.Some? {
      RemoveFirstMultiset(a, c.value);
      RemoveFirstMultiset(b, c.value);
    }
    var a1 := if ep && c.Some? then RemoveFirst(a, c.value) else a;
    var b1 := if ep && c.Some? then RemoveFirst(b, c.value) else b;
    if takes {
      RemoveFirstMultiset(a1, c.value);
      RemoveFirstMultiset(b1, c.value);
    }
  }

  /** Moving the same piece in two such states gives two such states. */
  lemma MoveSameButOrder(s: State, t: State, p: PieceId, d: Square)
    requires WF(s) && SameButOrder(s, t) && p in s.info && OnBoard(d)
    ensures WF(t)
    ensures SameButOrder(Move(s, p, d).state, Move(t, p, d).state)
  {
    SameButOrderWF(s, t);
    assert t.board == s.board && t.info == s.info && t.totalTurns == s.totalTurns;
    assert IsEnPassant(t, p, d) == IsEnPassant(s, p, d);
    assert CapturedBy(t, p, d) == CapturedBy(s, p, d);
    MoveParts(s, p, d);
    MoveParts(t, p, d);
    var c := CapturedBy(s, p, d);
    RosterAfterCaptureSame(t.pieces, s.pieces, c, IsEnPassant(s, p, d), Takes(s, c));
  }

  /** Moving a piece back in two such states gives two such states. */
  lemma MoveBackSameButOrder(s: State, t: State, p: PieceId, oldPos: Square, captured: Option<PieceId>, ep: bool)
    requires WF(s) && SameButOrder(s, t) && p in s.info && OnBoard(oldPos)
    requires captured.Some? ==> captured.value in s.info
    ensures WF(t)
    ensures SameButOrder(MoveBack(s, p, oldPos, captured, ep), MoveBack(t, p, oldPos, captured, ep))
  {
    SameButOrderWF(s, t);
  }

  /** The square recorded for c's King is occupied (by the King itself in
      play; by the mover during a trial move onto it). */
  predicate KingHome(s: State, c: Color)
    requires WF(s)
  {
    KingPosition(s, c).Some? ==> KingPosition(s, c).value in s.board
  }

  /** With c's King on its square, inCheck(c) does not depend on the order
      of the roster. */
  lemma InCheckSame(s: State, t: State, c: Color)
    requires WF(s) && SameButOrder(s, t) && KingsUnique(s) && KingHome(s, c)
    ensures WF(t) && InCheck(t, c) == InCheck(s, c)
  {
    SameButOrderWF(s, t);
    KingOfSame(s, t, c);
    if KingPosition(s, c).Some? {
      var k := KingPosition(s, c).value;
      InCheckIff(s, c);
      InCheckIff(t, c);
      forall q | q in s.pieces
        ensures Threatens(t, q, k) == Threatens(s, q, k)
      {
        ThreatensSame(s, t, q, k);
      }
    }
  }

  /** The castling-free tests read only the board, the pieces' records and
      the turn counter. */
  lemma ThreatensSame(s: State, t: State, p: PieceId, d: Square)
    requires WF(s) && SameButOrder(s, t) && p in s.info && OnBoard(d)
    ensures WF(t) && Threatens(t, p, d) == Threatens(s, p, d)
  {
    SameButOrderWF(s, t);
    ThreatensView(s, t, p, d);
  }

  /** The same for any two states with the same board, records and turn
      counter, whatever their lists hold. */
  lemma ThreatensView(s: State, t: State, p: PieceId, d: Square)
    requires WF(s) && WF(t) && SameView(s, t) && p in s.info && OnBoard(d)
    ensures Threatens(t, p, d) == Threatens(s, p, d)
  {
    match s.info[p].kind
    case Pawn => PawnAttacksSame(s, t, p, d);
    case Knight => KnightAttacksSame(s, t, p, d);
    case Bishop => BishopAttacksSame(s, t, p, d);
    case Rook => RookAttacksSame(s, t, p, d);
    case Queen => QueenAttacksSame(s, t, p, d);
    case King => assert KingStep(t, p, d) == KingStep(s, p, d);
  }
}
