/** What a turn does besides being undoable: the promotion, the window in
    which a double step can be taken en passant, the Rook's half of
    castling, and the second parking of Game.nextTurn. */
module TurnEffects {
  import opened Util
  import opened Squares
  import opened Pieces
  import opened Rules
  import opened Moves
  import opened Attacks
  import opened Turns

  // ---------------------------------------------------------------------
  // The en passant window
  // ---------------------------------------------------------------------

  /** A turn changes no double-step marker except the mover's, and the
      mover's only by a double step (which needs an unmoved pawn). */
  lemma {:induction false} MarkerUntouched(s: State, q: PieceId, d: Square, k: Kind, parks: nat, p: PieceId)
    requires WF(s) && q in s.info && OnBoard(d) && 1 <= parks <= 2 && p in s.info
    requires q != p || s.info[p].nMoves >= 1
    ensures var r := NextTurnWith(s, q, d, k, parks);
            p in r.state.info && r.state.info[p].movedTwo == s.info[p].movedTwo
  {
    MoveKeepsWF(s, q, d);
    NextTurnShape(s, q, d, k, parks);
    var r := NextTurnWith(s, q, d, k, parks);
    var m := Move(s, q, d).state;
    assert m.info[p].movedTwo == s.info[p].movedTwo;
    if r.data.promotion {
    } else if r.data.twoUp {
      assert q != p;
    } else if r.data.shortCastle || r.data.longCastle {
      var corner := Square(s.info[q].pos.row, CornerCol(r.data.shortCastle));
      var jump := Square(s.info[q].pos.row, JumpCol(r.data.shortCastle));
      assert Move(m, m.board[corner], jump).state.info[p].movedTwo == m.info[p].movedTwo;
    }
  }

  /** After a double step the pawn's marker equals the new turn count: the
      very next half-move may take it en passant (Pawn.java tests
      `movedTwo == totalTurns`). */
  lemma DoubleStepOpensWindow(s: State, p: PieceId, d: Square)
    requires WF(s) && p in s.info && OnBoard(d) && s.info[p].kind == Pawn && TwoUp(s, p, d)
    ensures var r := NextTurnAutoQueen(s, p, d);
            r.data.twoUp && !r.data.promotion
            && p in r.state.info && r.state.info[p].movedTwo == r.state.totalTurns
  {
    MoveKeepsWF(s, p, d);
    NextTurnShape(s, p, d, Queen, 1);
    var r := NextTurnAutoQueen(s, p, d);
    EffectOfTwoUp(s, p, d, Queen, r.data);
  }

  /** Once any later turn has been played the window is shut for good: a
      marker not above the turn count ends up strictly below it, so the
      test `movedTwo == totalTurns` fails from then on. */
  lemma WindowCloses(s: State, q: PieceId, d: Square, p: PieceId)
    requires WF(s) && q in s.info && OnBoard(d) && p in s.info
    requires q != p || s.info[p].nMoves >= 1
    requires s.info[p].movedTwo <= s.totalTurns
    ensures var r := NextTurnAutoQueen(s, q, d);
            p in r.state.info && r.state.info[p].movedTwo < r.state.totalTurns
  {
    MarkerUntouched(s, q, d, Queen, 1, p);
  }

  // ---------------------------------------------------------------------
  // Promotion
  // ---------------------------------------------------------------------

  /** Entries a move takes off the roster only get fewer. */
  lemma RosterCount(pieces: seq<PieceId>, c: Option<PieceId>, ep: bool, takes: bool, x: PieceId)
    requires takes ==> c.Some?
    ensures multiset(RosterAfterCapture(pieces, c, ep, takes))[x] <= multiset(pieces)[x]
  {
    if c.Some? {
      RemoveFirstMultiset(pieces, c.value);
      var once := if ep then RemoveFirst(pieces, c.value) else pieces;
      RemoveFirstMultiset(once, c.value);
    }
  }

  /** Removing an entry listed at most once removes it altogether. */
  lemma RemovedForGood(ps: seq<PieceId>, x: PieceId)
    requires multiset(ps)[x] <= 1
    ensures x !in RemoveFirst(ps, x)
  {
    RemoveFirstMultiset(ps, x);
  }

  /** A pawn reaching the last row: the pawn leaves the roster and the
      board, is parked at the end of promotedPawns still recording d as its
      square, and a new piece (identity nextId) of the chosen kind and the
      pawn's colour, never moved, stands on d and joins the roster. */
  lemma PromotionEffect(s: State, p: PieceId, d: Square, k: Kind)
    requires WF(s) && p in s.info && OnBoard(d) && Promotes(s, p, d) && NoDup(s.pieces)
    ensures var r := NextTurnWith(s, p, d, k, 1);
            var q := s.nextId;
            r.data.promotion
            && At(r.state, d) == Some(q) && q in r.state.info && r.state.info[q] == NewPiece(k, s.info[p].color, d)
            && q in r.state.pieces && p !in r.state.pieces
            && r.state.promoted == s.promoted + [p] && r.state.info[p].pos == d
  {
    MoveKeepsWF(s, p, d);
    NextTurnShape(s, p, d, k, 1);
    var m := Move(s, p, d);
    MoveParts(s, p, d);
    CountAtMostOne(s.pieces, p);
    RosterCount(s.pieces, m.captured, m.enPassant, Takes(s, m.captured), p);
    RemovedForGood(m.state.pieces, p);
    assert p != s.nextId;
  }

  // ---------------------------------------------------------------------
  // Castling
  // ---------------------------------------------------------------------

  /** A King's two-column move with a piece on the corner of its row
      (towards the side it moves) castles: the King ends on d, the corner
      piece on column 5 (right) or 3 (left), and the corner is empty. */
  lemma CastlingPlacesRook(s: State, p: PieceId, d: Square, right: bool)
    requires WF(s) && p in s.info && OnBoard(d) && TurnReady(s, p, d)
    requires s.info[p].kind == King
    requires if right then s.info[p].pos.col + 2 == d.col else s.info[p].pos.col - 2 == d.col
    requires Square(s.info[p].pos.row, CornerCol(right)) in s.board
    ensures var r := NextTurnAutoQueen(s, p, d);
            var cur := s.info[p].pos;
            var corner := Square(cur.row, CornerCol(right));
            (if right then r.data.shortCastle else r.data.longCastle)
            && At(r.state, d) == Some(p)
            && At(r.state, Square(cur.row, JumpCol(right))) == Some(s.board[corner])
            && corner !in r.state.board
  {
    var cur := s.info[p].pos;
    var corner := Square(cur.row, CornerCol(right));
    var jump := Square(cur.row, JumpCol(right));
    assert d.col == (if right then 6 else 2);
    assert At(s, cur) == Some(p);
    assert !IsEnPassant(s, p, d);
    MoveKeepsWF(s, p, d);
    MoveParts(s, p, d);
    NextTurnShape(s, p, d, Queen, 1);
    var m := Move(s, p, d).state;
    var rook := s.board[corner];
    assert corner != d && corner != cur;
    assert At(m, corner) == Some(rook) && rook != p;
    assert m.info[rook].pos == corner;
    RookJumpPlain(m, rook, jump);
    MoveParts(m, rook, jump);
  }

  // ---------------------------------------------------------------------
  // Game.nextTurn parks the pawn twice
  // ---------------------------------------------------------------------

  /** Dropping the first x from a + b when a has none. */
  lemma {:induction false} RemoveFirstPast<T>(a: seq<T>, b: seq<T>, x: T)
    requires x !in a
    ensures RemoveFirst(a + b, x) == a + RemoveFirst(b, x)
  {
    if a != [] {
      assert (a + b)[0] == a[0] != x;
      assert (a + b)[1..] == a[1..] + b;
      RemoveFirstPast(a[1..], b, x);
      assert a + RemoveFirst(b, x) == [a[0]] + (a[1..] + RemoveFirst(b, x));
    } else {
      assert a + b == b;
    }
  }

  /** As written, nextTurn appends the promoted pawn to promotedPawns
      twice. */
  lemma NextTurnParksTwice(s: State, p: PieceId, d: Square, choice: Kind)
    requires WF(s) && p in s.info && OnBoard(d) && Promotes(s, p, d)
    requires choice in {Queen, Rook, Bishop, Knight}
    ensures NextTurn(s, p, d, choice).state.promoted == s.promoted + [p, p]
  {
    MoveKeepsWF(s, p, d);
    NextTurnShape(s, p, d, choice, 2);
  }

  /** ... so prevTurn, which takes one entry off promotedPawns, leaves the
      pawn parked once: the promotion is not undone. */
  lemma NextTurnNotUndone(s: State, p: PieceId, d: Square, choice: Kind)
    requires WF(s) && p in s.info && OnBoard(d) && Promotes(s, p, d) && p !in s.promoted
    requires choice in {Queen, Rook, Bishop, Knight}
    ensures var r := NextTurn(s, p, d, choice);
            PrevTurnDefined(r.state, s.info[p].pos, d, r.data)
            && PrevTurn(r.state, s.info[p].pos, d, r.data).promoted == s.promoted + [p]
            && !SameButOrder(s, PrevTurn(r.state, s.info[p].pos, d, r.data))
  {
    MoveKeepsWF(s, p, d);
    NextTurnShape(s, p, d, choice, 2);
    NextTurnParksTwice(s, p, d, choice);
    var r := NextTurn(s, p, d, choice);
    var t := r.state;
    assert t.info[p].pos == d && t.info[p].nMoves >= 1;
    assert LastParkedOn(t, t.promoted, d) == Some(p);
    RemoveFirstPast(s.promoted, [p, p], p);
    assert RemoveFirst(t.promoted, p) == s.promoted + [p];
  }

  /** nextTurn as evidently intended: the pawn is parked once, as in
      nextTurnAutoQueen. */
  function NextTurnParkOnce(s: State, p: PieceId, d: Square, choice: Kind): (r: Turned)
    requires WF(s) && p in s.info && OnBoard(d) && choice in {Queen, Rook, Bishop, Knight}
    ensures WF(r.state)
    ensures r.state.turn == Opp(s.turn) && r.state.totalTurns == s.totalTurns + 1
  {
    NextTurnWith(s, p, d, choice, 1)
  }

  /** Parked once, the turn is undone by prevTurn whatever piece the player
      chose. */
  lemma NextTurnParkOnceRoundTrip(s: State, p: PieceId, d: Square, choice: Kind)
    requires WF(s) && p in s.info && OnBoard(d) && TurnReady(s, p, d)
    requires choice in {Queen, Rook, Bishop, Knight}
    ensures var r := NextTurnParkOnce(s, p, d, choice);
            PrevTurnDefined(r.state, s.info[p].pos, d, r.data)
            && SameButOrder(s, PrevTurn(r.state, s.info[p].pos, d, r.data))
  {
    var r := NextTurnWith(s, p, d, choice, 1);
    NextTurnShape(s, p, d, choice, 1);
    TurnCaseUndo(s, p, d, choice, r.state, r.data);
  }
}
