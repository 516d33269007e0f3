/** Positions that differ only in the order of the roster, as the trial
    moves of isValidMove and every make-and-unmake of the search leave
    them: prevTurn applies to the one whenever it applies to the other, and
    its results differ in the same way. */
module Restoring {
  import opened Util
  import opened Squares
  import opened Pieces
  import opened Rules
  import opened Moves
  import opened Attacks
  import opened Legality
  import opened Turns

  /** Setting a double-step marker agrees on such positions. */
  lemma SetMovedTwoSame(x: State, y: State, p: PieceId, n: int)
    requires WF(x) && SameButOrder(x, y) && p in x.info
    ensures WF(y) && SameButOrder(SetMovedTwo(x, p, n), SetMovedTwo(y, p, n))
  {
    SameButOrderWF(x, y);
  }

  /** The first step of prevTurn without a promotion agrees. */
  lemma UnwindSame(t: State, u: State, oldPos: Square, newPos: Square, data: TurnData)
    requires WF(t) && SameButOrder(t, u) && OnBoard(oldPos) && newPos in t.board
    requires data.captured.Some? ==> data.captured.value in t.info
    requires t.info[t.board[newPos]].nMoves >= 1
    ensures WF(u) && WF(UnwindMover(t, oldPos, newPos, data)) && WF(UnwindMover(u, oldPos, newPos, data))
    ensures SameButOrder(UnwindMover(t, oldPos, newPos, data), UnwindMover(u, oldPos, newPos, data))
  {
    SameButOrderWF(t, u);
    RewindWF(t);
    RewindWF(u);
    var mover := t.board[newPos];
    MoveBackKeepsWF(Rewind(t), mover, oldPos, data.captured, data.enPassant);
    MoveBackKeepsWF(Rewind(u), mover, oldPos, data.captured, data.enPassant);
    MoveBackSameButOrder(Rewind(t), Rewind(u), mover, oldPos, data.captured, data.enPassant);
  }

  /** prevTurn without a promotion agrees on such positions. */
  lemma PrevTurnPlainSame(t: State, u: State, oldPos: Square, newPos: Square, data: TurnData)
    requires PrevTurnDefined(t, oldPos, newPos, data) && !data.promotion && SameButOrder(t, u)
    ensures PrevTurnDefined(u, oldPos, newPos, data)
    ensures SameButOrder(PrevTurn(t, oldPos, newPos, data), PrevTurn(u, oldPos, newPos, data))
  {
    UnwindSame(t, u, oldPos, newPos, data);
    var s2 := UnwindMover(t, oldPos, newPos, data);
    var s2' := UnwindMover(u, oldPos, newPos, data);
    var mover := t.board[newPos];
    if data.twoUp {
      SetMovedTwoSame(s2, s2', mover, 0);
    } else if data.shortCastle || data.longCastle {
      var jump := Square(oldPos.row, JumpCol(data.shortCastle));
      var corner := Square(oldPos.row, CornerCol(data.shortCastle));
      MoveBackSameButOrder(s2, s2', s2.board[jump], corner, None, false);
    }
  }

  /** Whether the promoted piece is garbage does not depend on the order of
      the roster. */
  lemma ForgetSame(x: State, y: State, q: PieceId, data: TurnData)
    requires WF(x) && SameButOrder(x, y)
    ensures WF(y) && SameButOrder(Forget(x, q, data), Forget(y, q, data))
  {
    SameButOrderWF(x, y);
    assert Unreferenced(y, q, data) == Unreferenced(x, q, data);
  }

  /** prevTurn undoing a promotion agrees on such positions. */
  lemma PrevTurnPromotionSame(t: State, u: State, oldPos: Square, newPos: Square, data: TurnData)
    requires PrevTurnDefined(t, oldPos, newPos, data) && data.promotion && SameButOrder(t, u)
    ensures PrevTurnDefined(u, oldPos, newPos, data)
    ensures SameButOrder(PrevTurn(t, oldPos, newPos, data), PrevTurn(u, oldPos, newPos, data))
  {
    SameButOrderWF(t, u);
    LastParkedOnInfo(t, u, t.promoted, newPos);
    assert PrevTurnDefined(u, oldPos, newPos, data);
    PrevTurnUnpromoteSteps(t, oldPos, newPos, data);
    PrevTurnUnpromoteSteps(u, oldPos, newPos, data);
    var pawn := LastParkedOn(t, t.promoted, newPos).value;
    var mover := t.board[newPos];
    var s3 := Unpromoted(Rewind(t), mover, pawn, newPos);
    var s3' := Unpromoted(Rewind(u), mover, pawn, newPos);
    UnpromotedSame(Rewind(t), Rewind(u), mover, pawn, newPos);
    ForgetSame(s3, s3', mover, data);
    MoveBackSameButOrder(Forget(s3, mover, data), Forget(s3', mover, data), pawn, oldPos, data.captured, data.enPassant);
  }

  /** The swap of the promoted piece for the pawn agrees on such
      positions. */
  lemma UnpromotedSame(x: State, y: State, mover: PieceId, pawn: PieceId, newPos: Square)
    requires SameButOrder(x, y)
    ensures SameButOrder(Unpromoted(x, mover, pawn, newPos), Unpromoted(y, mover, pawn, newPos))
  {
    RemoveFirstMultiset(x.pieces, mover);
    RemoveFirstMultiset(y.pieces, mover);
  }

  /** prevTurn agrees on positions that differ only in the order of the
      roster: it can be applied to the one whenever to the other, and the
      results differ only in that order too. */
  lemma PrevTurnSame(t: State, u: State, oldPos: Square, newPos: Square, data: TurnData)
    requires PrevTurnDefined(t, oldPos, newPos, data) && SameButOrder(t, u)
    ensures PrevTurnDefined(u, oldPos, newPos, data)
    ensures SameButOrder(PrevTurn(t, oldPos, newPos, data), PrevTurn(u, oldPos, newPos, data))
  {
    if data.promotion {
      PrevTurnPromotionSame(t, u, oldPos, newPos, data);
    } else {
      PrevTurnPlainSame(t, u, oldPos, newPos, data);
    }
  }

  /** nextTurnAutoQueen agrees on such positions: the same piece moved to
      the same square gives positions that differ only in the order of the
      roster, with the same turn data. */
  lemma NextTurnSame(x: State, y: State, p: PieceId, d: Square)
    requires WF(x) && SameButOrder(x, y) && p in x.info && OnBoard(d)
    ensures WF(y)
    ensures NextTurnAutoQueen(y, p, d).data == NextTurnAutoQueen(x, p, d).data
    ensures SameButOrder(NextTurnAutoQueen(x, p, d).state, NextTurnAutoQueen(y, p, d).state)
  {
    SameButOrderWF(x, y);
    TurnDataSame(x, y, p, d);
    var data := NextTurnAutoQueen(x, p, d).data;
    EffectSame(x, y, p, d, data);
    assert NextTurnAutoQueen(x, p, d) == NextTurnWith(x, p, d, Queen, 1);
    assert NextTurnAutoQueen(y, p, d) == NextTurnWith(y, p, d, Queen, 1);
  }

  /** The turn data read only the board and the records. */
  lemma TurnDataSame(x: State, y: State, p: PieceId, d: Square)
    requires WF(x) && SameButOrder(x, y) && p in x.info && OnBoard(d)
    ensures WF(y)
    ensures NextTurnAutoQueen(y, p, d).data == NextTurnAutoQueen(x, p, d).data
    ensures var data := NextTurnAutoQueen(x, p, d).data;
            (data.shortCastle || data.longCastle) ==>
              Square(x.info[p].pos.row, CornerCol(data.shortCastle)) in Move(x, p, d).state.board
  {
    SameButOrderWF(x, y);
    MoveKeepsWF(x, p, d);
    MoveKeepsWF(y, p, d);
    MoveSameButOrder(x, y, p, d);
    TurnDataOf(x, p, d);
    TurnDataOf(y, p, d);
    var cur := x.info[p].pos;
    var mx, my := Move(x, p, d).state, Move(y, p, d).state;
    IsEnPassantSame(x, y, p, d);
    assert CapturedBy(y, p, d) == CapturedBy(x, p, d);
    assert Promotes(y, p, d) == Promotes(x, p, d);
    assert TwoUp(y, p, d) == TwoUp(x, p, d);
    assert Castles(y, my, p, cur, d, true) == Castles(x, mx, p, cur, d, true);
    assert Castles(y, my, p, cur, d, false) == Castles(x, mx, p, cur, d, false);
  }

  /** The turn data of nextTurnAutoQueen, field by field. */
  lemma TurnDataOf(s: State, p: PieceId, d: Square)
    requires WF(s) && p in s.info && OnBoard(d)
    ensures (MoveKeepsWF(s, p, d);
             var m := Move(s, p, d);
             var data := NextTurnAutoQueen(s, p, d).data;
             var cur := s.info[p].pos;
             data.captured == m.captured && data.enPassant == m.enPassant
             && data.promotion == Promotes(s, p, d)
             && data.twoUp == (s.info[p].kind == Pawn && TwoUp(s, p, d))
             && data.shortCastle == (!data.promotion && !data.twoUp && Castles(s, m.state, p, cur, d, true))
             && data.longCastle == (!data.promotion && !data.twoUp && !data.shortCastle
                                    && Castles(s, m.state, p, cur, d, false)))
  {
    MoveKeepsWF(s, p, d);
  }

  /** What a turn does before the turn passes agrees on such positions. */
  lemma EffectSame(x: State, y: State, p: PieceId, d: Square, data: TurnData)
    requires WF(x) && SameButOrder(x, y) && p in x.info && OnBoard(d)
    requires (data.shortCastle || data.longCastle) ==>
             Square(x.info[p].pos.row, CornerCol(data.shortCastle)) in Move(x, p, d).state.board
    ensures WF(y) && p in y.info
    ensures (data.shortCastle || data.longCastle) ==>
            Square(y.info[p].pos.row, CornerCol(data.shortCastle)) in Move(y, p, d).state.board
    ensures SameButOrder(Effect(x, p, d, Queen, 1, data), Effect(y, p, d, Queen, 1, data))
  {
    SameButOrderWF(x, y);
    MoveKeepsWF(x, p, d);
    MoveKeepsWF(y, p, d);
    MoveSameButOrder(x, y, p, d);
    var mx, my := Move(x, p, d).state, Move(y, p, d).state;
    assert my.board == mx.board && y.info == x.info && y.totalTurns == x.totalTurns;
    var ex, ey := Effect(x, p, d, Queen, 1, data), Effect(y, p, d, Queen, 1, data);
    if data.promotion {
      assert ex == Promote(mx, p, d, Queen, 1) && ey == Promote(my, p, d, Queen, 1);
      PromoteSame(mx, my, p, d);
    } else if data.twoUp {
      EffectOfTwoUp(x, p, d, Queen, data);
      EffectOfTwoUp(y, p, d, Queen, data);
      TwoUpSame(x, y, p, d);
    } else if data.shortCastle || data.longCastle {
      var row := x.info[p].pos.row;
      assert ex == CastleRook(mx, row, data.shortCastle) && ey == CastleRook(my, row, data.shortCastle);
      CastleRookSame(mx, my, row, data.shortCastle);
    } else {
      assert ex == mx && ey == my;
    }
  }

  /** Recording a double step agrees on such positions. */
  lemma TwoUpSame(x: State, y: State, p: PieceId, d: Square)
    requires WF(x) && SameButOrder(x, y) && p in x.info && OnBoard(d)
    ensures WF(y) && WF(Move(x, p, d).state) && WF(Move(y, p, d).state)
    ensures SameButOrder(SetMovedTwo(Move(x, p, d).state, p, x.totalTurns + 1),
                         SetMovedTwo(Move(y, p, d).state, p, y.totalTurns + 1))
  {
    MoveKeepsWF(x, p, d);
    MoveSameButOrder(x, y, p, d);
    MoveKeepsWF(y, p, d);
    assert y.totalTurns == x.totalTurns;
  }

  /** The Rook's half of castling agrees on such positions. */
  lemma CastleRookSame(x: State, y: State, row: int, right: bool)
    requires WF(x) && SameButOrder(x, y) && 0 <= row < 8 && Square(row, CornerCol(right)) in x.board
    ensures WF(y) && SameButOrder(CastleRook(x, row, right), CastleRook(y, row, right))
  {
    SameButOrderWF(x, y);
    var corner := Square(row, CornerCol(right));
    MoveSameButOrder(x, y, x.board[corner], Square(row, JumpCol(right)));
  }

  /** Promotion agrees on such positions. */
  lemma PromoteSame(x: State, y: State, p: PieceId, d: Square)
    requires WF(x) && SameButOrder(x, y) && p in x.info && OnBoard(d)
    ensures WF(y) && SameButOrder(Promote(x, p, d, Queen, 1), Promote(y, p, d, Queen, 1))
  {
    SameButOrderWF(x, y);
    var px, py := Promote(x, p, d, Queen, 1), Promote(y, p, d, Queen, 1);
    RemoveFirstMultiset(x.pieces, p);
    RemoveFirstMultiset(y.pieces, p);
    assert multiset(py.pieces) == multiset(px.pieces);
    assert py.board == px.board && py.info == px.info && py.removed == px.removed && py.promoted == px.promoted;
  }
}
