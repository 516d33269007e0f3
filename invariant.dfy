/** The facts about a position that every legal turn keeps: the board, the
    records and the roster agree, unmoved pawns and Kings stand at home,
    the double-step markers are consistent with the turn count, parked pawns
    are off the roster, and the side that just moved is not in check. They
    hold in the starting position (module Setup), and a legal turn made by
    nextTurnAutoQueen or by nextTurn keeps them, so they hold in every
    position the program plays or searches. */
module Invariant {
  import opened Util
  import opened Squares
  import opened Pieces
  import opened Rules
  import opened Moves
  import opened Attacks
  import opened Generators
  import opened Legality
  import opened Turns
  import opened Setup

  /** A piece's double-step marker is never ahead of the turn count, and
      a piece that never moved has none. */
  predicate Marked(s: State)
  {
    forall q :: q in s.info ==>
      s.info[q].movedTwo <= s.totalTurns && (s.info[q].nMoves == 0 ==> s.info[q].movedTwo == 0)
  }

  /** With the corrected test, a pawn taken en passant has moved: in a
      position whose markers are consistent (Marked) only a pawn that
      double-stepped can be passed. */
  lemma EnPassantVictimMoved(s: State, p: PieceId, d: Square, side: int)
    requires WF(s) && Marked(s) && p in s.info && (side == 1 || side == -1) && 0 <= s.info[p].pos.col + side < 8
    requires EnPassantBeside(s, p, d, side)
    ensures var n := Square(s.info[p].pos.row, s.info[p].pos.col + side);
            n in s.board && s.info[s.board[n]].nMoves >= 1
  {
  }

  /** A position like those Mates.gameMaker builds, at totalTurns 0: a White
      pawn on row 4, column 3 and beside it, on column 4, a Black pawn that
      has never moved, with the two Kings. */
  function CollisionPosition(): (s: State)
    ensures WF(s) && Marked(s) && 0 in s.info && 1 in s.info
    ensures s.info[0].pos == Square(4, 3) && Square(4, 4) in s.board && s.board[Square(4, 4)] == 1
  {
    State(map[Square(4, 3) := 0, Square(4, 4) := 1, Square(0, 4) := 2, Square(7, 4) := 3],
          map[0 := PieceRec(Pawn, White, Square(4, 3), 2, 0), 1 := PieceRec(Pawn, Black, Square(4, 4), 0, 0),
              2 := PieceRec(King, White, Square(0, 4), 1, 0), 3 := PieceRec(King, Black, Square(7, 4), 1, 0)],
          [0, 1, 2, 3], [], [], White, 0, 4)
  }

  /** As written, the White pawn may take the unmoved Black pawn en passant
      on turn 0: its marker 0 equals totalTurns 0. The corrected test
      refuses it. */
  lemma EnPassantMarkerCollision()
    ensures var s := CollisionPosition();
            EnPassantBesideAsWritten(s, 0, Square(5, 4), 1) && s.info[1].nMoves == 0
            && !EnPassantBeside(s, 0, Square(5, 4), 1)
  {
  }

  /** The facts every position of play keeps apart from check: it is
      coherent, unmoved pawns and Kings stand at home, the turn count is not
      negative, the markers are consistent with it, and parked pawns are off
      the roster. */
  predicate Settled(s: State)
  {
    Coherent(s) && UnmovedAtHome(s) && s.totalTurns >= 0 && Marked(s)
    && (forall q :: q in s.promoted ==> q !in s.pieces)
  }

  /** And the side that just moved is not in check. */
  predicate TurnInvariant(s: State)
  {
    Settled(s) && !InCheck(s, Opp(s.turn))
  }

  /** Every legal move of a roster piece in such a position can be taken
      back. */
  lemma LegalTurnReady(s: State, p: PieceId, d: Square)
    requires TurnInvariant(s) && p in s.pieces && OnBoard(d) && Legal(s, p, d)
    ensures TurnReady(s, p, d)
  {
    assert p in s.info && p !in s.promoted;
    ValidTurnReady(s, p, d);
  }

  /** The same for any move isValidCapture accepts. */
  lemma ValidTurnReady(s: State, p: PieceId, d: Square)
    requires Coherent(s) && UnmovedAtHome(s) && p in s.pieces && OnBoard(d) && IsValidCapture(s, p, d)
    requires (s.info[p].nMoves == 0 ==> s.info[p].movedTwo == 0) && p !in s.promoted
    ensures TurnReady(s, p, d)
  {
    CoherentUndoable(s, p, d);
    var r := s.info[p];
    assert IsValidCapture(s, p, d);
    assert At(s, r.pos) == Some(p);
    if r.kind == King {
      assert KingCaptures(s, p, d);
      if r.pos.col + 2 == d.col || r.pos.col - 2 == d.col {
        assert !Adjacent(r.pos, d);
        assert CastlingShort(s, p, d) || CastlingLong(s, p, d);
        assert r.nMoves == 0;
        CastlingTargetEmpty(s, p, d);
        if CastlingShort(s, p, d) {
          ShortPathClear(s, p);
        } else {
          LongPathClear(s, p);
        }
      }
    } else if r.kind == Pawn {
      assert PawnAttacks(s, p, d);
      if EnPassant(s, p, d) {
        assert IsEnPassant(s, p, d);
      }
    }
  }

  /** Coherent without its en passant clause: board, records and roster
      agree, the roster shares nothing with `removed`, and each side has at
      most one King. */
  predicate Placed(s: State)
  {
    WF(s)
    && NoDup(s.pieces)
    && (forall q :: q in s.pieces ==> At(s, s.info[q].pos) == Some(q))
    && (forall sq :: sq in s.board ==> s.info[s.board[sq]].pos == sq)
    && (forall sq :: sq in s.board ==> s.board[sq] in s.pieces)
    && (forall q :: q in s.removed ==> q !in s.pieces)
    && KingsUnique(s)
  }

  /** The roster after a capture that takes the piece off it: the captured
      piece is gone, every other entry stays, and none repeats. */
  lemma RosterAfterCaptureFacts(ps: seq<PieceId>, c: Option<PieceId>, ep: bool, takes: bool)
    requires NoDup(ps) && (takes <==> c.Some?)
    ensures var r := RosterAfterCapture(ps, c, ep, takes);
            NoDup(r) && (forall q :: q in r <==> q in ps && c != Some(q))
  {
    if c.Some? {
      RemoveFirstNoDup(ps, c.value);
      if ep {
        RemoveFirstNoDup(RemoveFirst(ps, c.value), c.value);
      }
    }
  }

  /** t is s after piece p moved from its square to d, capturing c,
      which stood on d, or (en passant, e = Some(sq)) on sq with d empty. */
  ghost predicate MovedShape(s: State, t: State, p: PieceId, d: Square, c: Option<PieceId>, e: Option<Square>)
    requires WF(s) && p in s.info
  {
    var cur := s.info[p].pos;
    t.board == MovedBoard(s.board, p, cur, d, e)
    && t.info == s.info[p := s.info[p].(pos := d, nMoves := s.info[p].nMoves + 1)]
    && NoDup(t.pieces) && (forall q :: q in t.pieces <==> q in s.pieces && c != Some(q))
    && t.removed == (if c.Some? then s.removed + [c.value] else s.removed)
    && c != Some(p) && d != cur
    && (if e.Some? then e.value != cur && e.value != d && d !in s.board && At(s, e.value) == c
        else At(s, d) == c)
  }

  /** The roster pieces of the moved state stand on the squares they
      record. */
  lemma MovedRoster(s: State, t: State, p: PieceId, d: Square, c: Option<PieceId>, e: Option<Square>)
    requires Placed(s) && p in s.pieces && WF(t) && MovedShape(s, t, p, d, c, e)
    ensures forall q :: q in t.pieces ==> At(t, t.info[q].pos) == Some(q)
  {
    var cur := s.info[p].pos;
    forall q | q in t.pieces
      ensures At(t, t.info[q].pos) == Some(q)
    {
      if q != p {
        var sq := s.info[q].pos;
        assert s.board[sq] == q;
        assert sq != d && sq != cur && Some(sq) != e;
      }
    }
  }

  /** Every occupant of the moved state records its square and is on the
      roster. */
  lemma MovedBoardListed(s: State, t: State, p: PieceId, d: Square, c: Option<PieceId>, e: Option<Square>)
    requires Placed(s) && p in s.pieces && WF(t) && MovedShape(s, t, p, d, c, e)
    ensures forall sq :: sq in t.board ==> t.info[t.board[sq]].pos == sq && t.board[sq] in t.pieces
  {
    var cur := s.info[p].pos;
    forall sq | sq in t.board
      ensures t.info[t.board[sq]].pos == sq && t.board[sq] in t.pieces
    {
      if sq != d {
        assert sq in s.board && sq != cur && Some(sq) != e;
        var q := s.board[sq];
        assert q != p;
        assert c != Some(q);
      }
    }
  }

  /** Hence the moved state is placed. */
  lemma MovedPlaced(s: State, t: State, p: PieceId, d: Square, c: Option<PieceId>, e: Option<Square>)
    requires Placed(s) && p in s.pieces && WF(t) && MovedShape(s, t, p, d, c, e)
    ensures Placed(t)
  {
    MovedRoster(s, t, p, d, c, e);
    MovedBoardListed(s, t, p, d, c, e);
    MovedLists(s, t, p, d, c, e);
  }

  /** The moved state's roster shares nothing with `removed` and has at
      most one King of each colour. */
  lemma MovedLists(s: State, t: State, p: PieceId, d: Square, c: Option<PieceId>, e: Option<Square>)
    requires Placed(s) && p in s.pieces && WF(t) && MovedShape(s, t, p, d, c, e)
    ensures forall q :: q in t.removed ==> q !in t.pieces
    ensures KingsUnique(t)
  {
    assert forall q :: q in t.pieces ==> q in s.pieces && t.info[q].kind == s.info[q].kind && t.info[q].color == s.info[q].color;
  }

  /** move() of a roster piece that captures no King, landing en passant
      on an empty square, has that shape. */
  lemma MoveShape(s: State, p: PieceId, d: Square)
    requires Placed(s) && p in s.pieces && OnBoard(d) && d != s.info[p].pos
    requires CapturedBy(s, p, d).Some? ==> CapturedBy(s, p, d).value != p && s.info[CapturedBy(s, p, d).value].kind != King
    requires IsEnPassant(s, p, d) ==> d !in s.board
    ensures (MoveKeepsWF(s, p, d);
             var m := Move(s, p, d);
             var cur := s.info[p].pos;
             MovedShape(s, m.state, p, d, m.captured, if m.enPassant then Some(Square(cur.row, d.col)) else None))
  {
    MoveKeepsWF(s, p, d);
    MoveShapeBoard(s, p, d);
    MoveShapeInfo(s, p, d);
    MoveShapeRoster(s, p, d);
    MoveShapeCapture(s, p, d);
  }

  lemma MoveShapeBoard(s: State, p: PieceId, d: Square)
    requires WF(s) && p in s.info && OnBoard(d)
    ensures var m := Move(s, p, d);
            var cur := s.info[p].pos;
            m.state.board == MovedBoard(s.board, p, cur, d, if m.enPassant then Some(Square(cur.row, d.col)) else None)
  {
    MoveParts(s, p, d);
  }

  lemma MoveShapeInfo(s: State, p: PieceId, d: Square)
    requires WF(s) && p in s.info && OnBoard(d)
    ensures Move(s, p, d).state.info == s.info[p := s.info[p].(pos := d, nMoves := s.info[p].nMoves + 1)]
  {
  }

  lemma MoveShapeRoster(s: State, p: PieceId, d: Square)
    requires Placed(s) && p in s.pieces && OnBoard(d)
    requires CapturedBy(s, p, d).Some? ==> s.info[CapturedBy(s, p, d).value].kind != King
    ensures var m := Move(s, p, d);
            NoDup(m.state.pieces) && (forall q :: q in m.state.pieces <==> q in s.pieces && m.captured != Some(q))
            && m.state.removed == (if m.captured.Some? then s.removed + [m.captured.value] else s.removed)
  {
    MoveParts(s, p, d);
    var m := Move(s, p, d);
    assert Takes(s, m.captured) <==> m.captured.Some?;
    RosterAfterCaptureFacts(s.pieces, m.captured, m.enPassant, Takes(s, m.captured));
  }

  lemma MoveShapeCapture(s: State, p: PieceId, d: Square)
    requires Placed(s) && p in s.pieces && OnBoard(d)
    requires IsEnPassant(s, p, d) ==> d !in s.board
    ensures var m := Move(s, p, d);
            var cur := s.info[p].pos;
            if m.enPassant then
              var e := Square(cur.row, d.col);
              e != cur && e != d && d !in s.board && At(s, e) == m.captured
            else At(s, d) == m.captured
  {
    var cur := s.info[p].pos;
    assert At(s, cur) == Some(p);
    if IsEnPassant(s, p, d) {
      EnPassantShape(s, p, d);
    }
  }

  /** So such a move keeps board, records and roster in agreement. */
  lemma MovePlaced(s: State, p: PieceId, d: Square)
    requires Placed(s) && p in s.pieces && OnBoard(d) && d != s.info[p].pos
    requires CapturedBy(s, p, d).Some? ==> CapturedBy(s, p, d).value != p && s.info[CapturedBy(s, p, d).value].kind != King
    requires IsEnPassant(s, p, d) ==> d !in s.board
    ensures (MoveKeepsWF(s, p, d); Placed(Move(s, p, d).state))
  {
    MoveKeepsWF(s, p, d);
    MoveShape(s, p, d);
    var m := Move(s, p, d);
    var cur := s.info[p].pos;
    MovedPlaced(s, m.state, p, d, m.captured, if m.enPassant then Some(Square(cur.row, d.col)) else None);
  }

  // ---------------------------------------------------------------------
  // Kings and checks in a placed position
  // ---------------------------------------------------------------------

  /** With one King per side, the King getKingPosition finds is the one
      King of that colour on the roster. */
  lemma KingAt(s: State, c: Color, k: PieceId)
    requires WF(s) && KingsUnique(s) && k in s.pieces && s.info[k].kind == King && s.info[k].color == c
    ensures KingOf(s, c) == Some(k) && KingPosition(s, c) == Some(s.info[k].pos)
  {
  }

  /** A check is a King of colour c on the roster and an enemy roster
      piece that may capture on its square. */
  lemma CheckWitness(s: State, c: Color) returns (k: PieceId, q: PieceId)
    requires Placed(s) && InCheck(s, c)
    ensures k in s.pieces && s.info[k].kind == King && s.info[k].color == c
    ensures q in s.pieces && s.info[q].color != c && Threatens(s, q, s.info[k].pos)
  {
    k := KingOf(s, c).value;
    var sq := s.info[k].pos;
    var i :| 0 <= i < |s.pieces| && s.info[s.pieces[i]].color != c && IsValidCapture(s, s.pieces[i], sq);
    q := s.pieces[i];
    CaptureOnOccupied(s, q, sq);
  }

  /** And such a pair makes a check. */
  lemma CheckFrom(s: State, c: Color, k: PieceId, q: PieceId)
    requires Placed(s)
    requires k in s.pieces && s.info[k].kind == King && s.info[k].color == c
    requires q in s.pieces && s.info[q].color != c && Threatens(s, q, s.info[k].pos)
    ensures InCheck(s, c)
  {
    KingAt(s, c, k);
    var sq := s.info[k].pos;
    CaptureOnOccupied(s, q, sq);
    var i :| 0 <= i < |s.pieces| && s.pieces[i] == q;
    assert s.info[s.pieces[i]].color != c && IsValidCapture(s, s.pieces[i], sq);
  }

  /** A roster piece threatening an occupied square of a coherent position
      threatens an enemy piece there. */
  lemma ThreatensEnemy(s: State, p: PieceId, d: Square)
    requires Coherent(s) && p in s.pieces && OnBoard(d) && d in s.board && Threatens(s, p, d)
    ensures s.info[s.board[d]].color != s.info[p].color
  {
    assert At(s, s.info[p].pos) == Some(p);
    assert IsEnPassant(s, p, d) == (s.info[p].kind == Pawn && EnPassant(s, p, d));
  }

  /** A legal move of the side to move leaves its square, and whatever it
      captures is an enemy piece other than a King: taking the enemy King
      would mean the side that moved last had left it in check. An en
      passant move lands on an empty square. */
  lemma LegalCapture(s: State, p: PieceId, d: Square)
    requires TurnInvariant(s) && p in s.pieces && s.info[p].color == s.turn && OnBoard(d) && Legal(s, p, d)
    ensures d != s.info[p].pos
    ensures IsEnPassant(s, p, d) ==> d !in s.board
    ensures var c := CapturedBy(s, p, d);
            c.Some? ==> c.value != p && s.info[c.value].kind != King && s.info[c.value].color != s.turn
  {
    ValidCapture(s, p, d);
  }

  /** The same for any move isValidCapture accepts when the other side is
      not in check. */
  lemma ValidCapture(s: State, p: PieceId, d: Square)
    requires Coherent(s) && !InCheck(s, Opp(s.turn))
    requires p in s.pieces && s.info[p].color == s.turn && OnBoard(d) && IsValidCapture(s, p, d)
    ensures d != s.info[p].pos
    ensures IsEnPassant(s, p, d) ==> d !in s.board
    ensures var c := CapturedBy(s, p, d);
            c.Some? ==> c.value != p && s.info[c.value].kind != King && s.info[c.value].color != s.turn
  {
    var cur := s.info[p].pos;
    assert IsValidCapture(s, p, d);
    assert At(s, cur) == Some(p);
    if IsEnPassant(s, p, d) {
      EnPassantShape(s, p, d);
    } else if d in s.board {
      var c := s.board[d];
      CaptureOnOccupied(s, p, d);
      ThreatensEnemy(s, p, d);
      if s.info[c].kind == King {
        CheckFrom(s, Opp(s.turn), c, p);
        assert false;
      }
    }
  }

  // ---------------------------------------------------------------------
  // The other effects of a turn keep the board and the roster in agreement
  // ---------------------------------------------------------------------

  /** Passing the turn and counting it reads no square and no piece. */
  lemma PlacedPassed(s: State, u: State)
    requires Placed(u)
    ensures Placed(Passed(s, u))
  {
    var t := Passed(s, u);
    assert t == u.(turn := Opp(s.turn), totalTurns := s.totalTurns + 1);
    assert forall q :: q in t.pieces ==> At(t, t.info[q].pos) == At(u, u.info[q].pos);
  }

  /** Marking a pawn's double step changes no square and no kind. */
  lemma PlacedMarked(u: State, p: PieceId, n: int)
    requires Placed(u) && p in u.info
    ensures Placed(SetMovedTwo(u, p, n))
  {
    var t := SetMovedTwo(u, p, n);
    assert forall q :: q in t.info ==> t.info[q].pos == u.info[q].pos && t.info[q].kind == u.info[q].kind
                                       && t.info[q].color == u.info[q].color;
  }

  /** Promotion on the pawn's square d replaces it on the board and on the
      roster by a new piece, which is not a King. */
  lemma PromotePlaced(u: State, p: PieceId, d: Square, k: Kind)
    requires Placed(u) && p in u.pieces && u.info[p].pos == d && OnBoard(d) && k != King
    ensures Placed(Promote(u, p, d, k, 1))
  {
    var t := Promote(u, p, d, k, 1);
    PromoteRoster(u, p, d, k);
    PromoteBoard(u, p, d, k);
    assert u.nextId !in u.info;
  }

  /** The promoted roster: the pawn's entry is gone, the new piece is
      appended, nothing repeats, and each entry stands on its square. */
  lemma PromoteRoster(u: State, p: PieceId, d: Square, k: Kind)
    requires Placed(u) && p in u.pieces && u.info[p].pos == d && OnBoard(d)
    ensures var t := Promote(u, p, d, k, 1);
            NoDup(t.pieces) && (forall q :: q in t.pieces <==> (q in u.pieces && q != p) || q == u.nextId)
            && forall q :: q in t.pieces ==> At(t, t.info[q].pos) == Some(q)
  {
    var t := Promote(u, p, d, k, 1);
    var q0 := u.nextId;
    var rest := RemoveFirst(u.pieces, p);
    RemoveFirstNoDup(u.pieces, p);
    assert q0 !in u.info;
    NoDupAppend(rest, [q0]);
    forall q | q in t.pieces
      ensures At(t, t.info[q].pos) == Some(q)
    {
      if q != q0 {
        assert u.board[u.info[q].pos] == q && u.info[q].pos != d;
      }
    }
  }

  /** The promoted board: every occupant records its square and is on the
      roster. */
  lemma PromoteBoard(u: State, p: PieceId, d: Square, k: Kind)
    requires Placed(u) && p in u.pieces && u.info[p].pos == d && OnBoard(d)
    ensures var t := Promote(u, p, d, k, 1);
            forall sq :: sq in t.board ==> t.info[t.board[sq]].pos == sq && t.board[sq] in t.pieces
  {
    var t := Promote(u, p, d, k, 1);
    var rest := RemoveFirst(u.pieces, p);
    assert t.pieces == rest + [u.nextId] && t.board == (u.board - {d})[d := u.nextId];
    forall sq | sq in t.board
      ensures t.info[t.board[sq]].pos == sq && t.board[sq] in t.pieces
    {
      if sq != d {
        assert u.board[sq] != p && u.board[sq] in rest;
      }
    }
  }

  // ---------------------------------------------------------------------
  // Records after a turn
  // ---------------------------------------------------------------------

  /** The records after a turn, against those before it: the roster gains
      only new pieces; every record is unchanged, or belongs to a piece
      that has now moved and kept its double-step marker (or, for
      `marker`, got the new turn count as its marker), or belongs to a
      new piece that is neither a pawn nor a King and never moved. */
  predicate Kept(s: State, t: State, marker: Option<PieceId>)
    requires WF(s) && WF(t)
  {
    t.totalTurns == s.totalTurns + 1
    && (forall q :: q in t.pieces ==> q in s.pieces || q !in s.info)
    && forall q :: q in t.info ==>
         (q in s.info && t.info[q] == s.info[q])
         || (q in s.info && t.info[q].nMoves >= 1
             && (t.info[q].movedTwo == s.info[q].movedTwo
                 || (Some(q) == marker && t.info[q].movedTwo == t.totalTurns)))
         || (q !in s.info && t.info[q].kind != Pawn && t.info[q].kind != King
             && t.info[q].nMoves == 0 && t.info[q].movedTwo == 0)
  }

  /** So unmoved pieces stay at home, the markers stay consistent, and
      only `marker` carries the new turn count. */
  lemma KeptHome(s: State, t: State, marker: Option<PieceId>)
    requires WF(s) && UnmovedAtHome(s) && s.totalTurns >= 0 && Marked(s)
    requires WF(t) && Kept(s, t, marker)
    ensures UnmovedAtHome(t) && t.totalTurns >= 0 && Marked(t)
    ensures forall q :: q in t.info && t.info[q].movedTwo == t.totalTurns ==> Some(q) == marker
  {
  }

  /** The square a pawn passed over if it just made a double step. */
  function Behind(r: PieceRec): Square
  {
    Square(r.pos.row + (if r.color == White then -1 else 1), r.pos.col)
  }

  /** En passant needs a neighbour marked with the current turn count. When
      only `marker` can be marked so, and (if it is) the square it passed
      over is empty, every en passant destination is empty. */
  lemma MarkedEnPassantClear(t: State, marker: Option<PieceId>)
    requires Placed(t)
    requires forall q :: q in t.info && t.info[q].movedTwo == t.totalTurns ==> Some(q) == marker
    requires marker.Some? ==> marker.value in t.pieces && Behind(t.info[marker.value]) !in t.board
    ensures EnPassantClear(t)
  {
    forall q, d | q in t.info && OnBoard(d) && IsEnPassant(t, q, d)
      ensures d !in t.board
    {
      var o := At(t, t.info[q].pos).value;
      var r := t.info[o];
      assert EnPassant(t, o, d);
      var side := if r.pos.col < 7 && EnPassantBeside(t, o, d, 1) then 1 else -1;
      assert EnPassantBeside(t, o, d, side);
      var n := Square(r.pos.row, r.pos.col + side);
      assert t.info[t.board[n]].movedTwo == t.totalTurns;
      assert t.board[n] == marker.value && t.info[marker.value].pos == n;
      assert d == Behind(t.info[marker.value]);
    }
  }

  // ---------------------------------------------------------------------
  // Threats on an occupied square when the board changes
  // ---------------------------------------------------------------------

  /** A slide that is clear on board a stays clear on board b when every
      square b occupies, except perhaps x, is occupied on a, and x is an
      edge square that cannot lie strictly between a square and d. */
  lemma SlideMono(a: Occupancy, b: Occupancy, cur: Square, d: Square, x: Square)
    requires OnBoard(cur) && OnBoard(d) && d != cur && OnLine(cur, d) && SlideClear(a, cur, d)
    requires forall sq :: sq in b && sq != x ==> sq in a
    requires x !in b || (x.col == 7 && d.col < 7) || (x.col == 0 && d.col > 0)
    ensures SlideClear(b, cur, d)
  {
    var dx := Sign(d.col - cur.col);
    var dy := Sign(d.row - cur.row);
    var n := RayTo(cur, d);
    NeighbourPathClear(a, cur, dx, dy, n);
    ClearBetweenMono(a, b, cur, dx, dy, n, x);
    NeighbourPathClear(b, cur, dx, dy, n);
  }

  /** The squares strictly inside the ray, empty on a, are empty on b. */
  lemma ClearBetweenMono(a: Occupancy, b: Occupancy, cur: Square, dx: int, dy: int, n: int, x: Square)
    requires OnBoard(cur) && IsDirection(dx, dy) && OnBoard(Ray(cur, dx, dy, n)) && ClearBetween(a, cur, dx, dy, 0, n)
    requires forall sq :: sq in b && sq != x ==> sq in a
    requires x !in b || (x.col == 7 && Ray(cur, dx, dy, n).col < 7) || (x.col == 0 && Ray(cur, dx, dy, n).col > 0)
    ensures ClearBetween(b, cur, dx, dy, 0, n)
  {
    forall j | 0 < j < n
      ensures Ray(cur, dx, dy, j) !in b
    {
      if x in b {
        RayInside(cur, dx, dy, j, n, x);
      }
    }
  }

  /** A square on a line from cur is a number of steps along the ray
      towards it. */
  lemma RayTo(cur: Square, d: Square) returns (n: int)
    requires d != cur && OnLine(cur, d)
    ensures n >= 1 && IsDirection(Sign(d.col - cur.col), Sign(d.row - cur.row))
    ensures d == Ray(cur, Sign(d.col - cur.col), Sign(d.row - cur.row), n)
  {
    n := if d.col != cur.col then Abs(d.col - cur.col) else Abs(d.row - cur.row);
  }

  /** A square strictly inside a ray that ends on the board before the
      edge x is not x. */
  lemma RayInside(cur: Square, dx: int, dy: int, j: int, n: int, x: Square)
    requires OnBoard(cur) && IsDirection(dx, dy) && 0 < j < n && OnBoard(Ray(cur, dx, dy, n))
    requires (x.col == 7 && Ray(cur, dx, dy, n).col < 7) || (x.col == 0 && Ray(cur, dx, dy, n).col > 0)
    ensures Ray(cur, dx, dy, j) != x
  {
  }

  /** A threat on an occupied square k, other than en passant, survives a
      change of board that keeps the threatening piece, the colour on k,
      and every occupied square but an edge square x. */
  lemma ThreatMono(a: State, b: State, q: PieceId, k: Square, x: Square)
    requires WF(a) && WF(b) && q in a.info && q in b.info && b.info[q] == a.info[q] && OnBoard(k)
    requires k in a.board && k in b.board && b.info[b.board[k]].color == a.info[a.board[k]].color
    requires forall sq :: sq in b.board && sq != x ==> sq in a.board
    requires x !in b.board || (x.col == 7 && k.col < 7) || (x.col == 0 && k.col > 0)
    requires a.info[q].kind == Pawn ==> !EnPassant(a, q, k)
    requires Threatens(a, q, k)
    ensures Threatens(b, q, k)
  {
    var cur := a.info[q].pos;
    match a.info[q].kind
    case Pawn =>
      assert PawnCapture(a, q, k);
    case Knight =>
    case Bishop =>
      SlideMono(a.board, b.board, cur, k, x);
    case Rook =>
      SlideMono(a.board, b.board, cur, k, x);
    case Queen =>
      SlideMono(a.board, b.board, cur, k, x);
    case King =>
  }

  /** The side that moved is not in check after the turn when it was not in
      check after the move itself, and the turn kept its King and every
      enemy piece and emptied no square. */
  lemma NoCheckAfter(m: State, t: State, c: Color)
    requires Placed(m) && Coherent(t) && !InCheck(m, c)
    requires forall q :: q in t.pieces && (t.info[q].color != c || t.info[q].kind == King) ==>
                         q in m.pieces && m.info[q] == t.info[q]
    requires forall sq :: sq in m.board ==> sq in t.board
    ensures !InCheck(t, c)
  {
    if InCheck(t, c) {
      var k, q := CheckWitness(t, c);
      ThreatCarried(m, t, c, k, q);
      CheckFrom(m, c, k, q);
    }
  }

  /** The step of NoCheckAfter for one King and one threatening piece. */
  lemma ThreatCarried(m: State, t: State, c: Color, k: PieceId, q: PieceId)
    requires Placed(m) && Coherent(t)
    requires k in t.pieces && t.info[k].kind == King && t.info[k].color == c
    requires q in t.pieces && t.info[q].color != c && Threatens(t, q, t.info[k].pos)
    requires k in m.pieces && m.info[k] == t.info[k] && q in m.pieces && m.info[q] == t.info[q]
    requires forall sq :: sq in m.board ==> sq in t.board
    ensures Threatens(m, q, m.info[k].pos)
  {
    var sq := t.info[k].pos;
    assert m.board[sq] == k && t.board[sq] == k;
    assert At(t, t.info[q].pos) == Some(q);
    assert IsEnPassant(t, q, sq) == (t.info[q].kind == Pawn && EnPassant(t, q, sq));
    ThreatMono(t, m, q, sq, Square(-1, -1));
  }

  // ---------------------------------------------------------------------
  // Castling does not leave the King in check
  // ---------------------------------------------------------------------

  /** The state after the King's half of castling: the King p on column 6
      (2) of its row, the corner piece on column 7 (0), and for the long
      side column 1 empty. */
  ghost predicate CastledKing(m: State, p: PieceId, rook: PieceId, right: bool)
    requires WF(m)
  {
    p in m.pieces && m.info[p].kind == King && rook in m.pieces && rook != p && m.info[rook].kind != King
    && m.info[p].pos == Square(m.info[p].pos.row, if right then 6 else 2)
    && m.info[rook].pos == Square(m.info[p].pos.row, CornerCol(right))
    && (!right ==> Square(m.info[p].pos.row, 1) !in m.board)
  }

  /** What the corner piece's jump to column 5 (3) leaves of m in t: the
      same roster, the jumper's new square, every other record, the King
      on its square, and every occupied square but the corner. */
  ghost predicate RookJumped(m: State, t: State, p: PieceId, rook: PieceId, right: bool)
    requires WF(m) && p in m.info && rook in m.info
  {
    var d := m.info[p].pos;
    t.pieces == m.pieces
    && rook in t.info && t.info[rook].pos == Square(d.row, JumpCol(right))
    && t.info[rook].kind == m.info[rook].kind && t.info[rook].color == m.info[rook].color
    && (forall q :: q in m.info && q != rook ==> q in t.info && t.info[q] == m.info[q])
    && Occupant(t.board, d) == Some(p)
    && (forall sq :: sq in m.board && sq != m.info[rook].pos ==> sq in t.board)
  }

  /** An enemy corner piece that threatens the King from column 5 (3) is
      a Rook or a Queen on the King's row, and it threatened the King from
      the corner already. */
  lemma CornerThreat(m: State, t: State, rook: PieceId, d: Square, right: bool)
    requires WF(m) && WF(t) && rook in m.info && rook in t.info && 0 <= d.row < 8
    requires d.col == (if right then 6 else 2) && (!right ==> Square(d.row, 1) !in m.board)
    requires m.info[rook].pos == Square(d.row, CornerCol(right)) && t.info[rook].pos == Square(d.row, JumpCol(right))
    requires t.info[rook].kind == m.info[rook].kind && t.info[rook].kind != King
    requires d in m.board && m.info[m.board[d]].color != m.info[rook].color && d in t.board
    requires Threatens(t, rook, d)
    ensures Threatens(m, rook, d)
  {
    SideThreat(t, rook, d);
    CornerSees(m.board, d, right);
  }

  /** A piece other than a King that threatens an occupied square beside it
      on its row is a Rook or a Queen. */
  lemma SideThreat(t: State, q: PieceId, d: Square)
    requires WF(t) && q in t.info && t.info[q].kind != King && OnBoard(d) && d in t.board
    requires t.info[q].pos.row == d.row && Abs(t.info[q].pos.col - d.col) == 1
    requires Threatens(t, q, d)
    ensures t.info[q].kind == Rook || t.info[q].kind == Queen
  {
  }

  /** From the corner the King's square on column 6 (2) is in clear sight
      when, on the long side, column 1 is empty. */
  lemma CornerSees(b: Occupancy, d: Square, right: bool)
    requires 0 <= d.row < 8 && d.col == (if right then 6 else 2)
    requires !right ==> Square(d.row, 1) !in b
    ensures SlideClear(b, Square(d.row, CornerCol(right)), d)
  {
    if !right {
      assert NothingInBetween(b, d, Square(d.row, 2), 1, 0);
    }
  }

  /** Any other enemy piece that threatens the King after the jump did so
      before it: the corner it left is an edge square behind the King. */
  lemma CastleThreatCarried(m: State, t: State, p: PieceId, rook: PieceId, right: bool, q: PieceId)
    requires Placed(m) && Coherent(t) && CastledKing(m, p, rook, right) && RookJumped(m, t, p, rook, right)
    requires q in t.pieces && q != rook && Threatens(t, q, m.info[p].pos)
    ensures Threatens(m, q, m.info[p].pos)
  {
    var d := m.info[p].pos;
    var corner := m.info[rook].pos;
    assert m.board[d] == p && t.board[d] == p;
    assert At(t, t.info[q].pos) == Some(q);
    assert IsEnPassant(t, q, d) == (t.info[q].kind == Pawn && EnPassant(t, q, d));
    ThreatMono(t, m, q, d, corner);
  }

  /** So a castling move that was safe for the King after its own half is
      still safe after the corner piece's jump. */
  lemma CastleNoCheck(m: State, t: State, p: PieceId, rook: PieceId, right: bool)
    requires Placed(m) && Coherent(t) && CastledKing(m, p, rook, right) && RookJumped(m, t, p, rook, right)
    requires !InCheck(m, m.info[p].color)
    ensures !InCheck(t, m.info[p].color)
  {
    var c := m.info[p].color;
    if InCheck(t, c) {
      var k, q := CheckWitness(t, c);
      CastleThreatBack(m, t, p, rook, right, k, q);
      CheckFrom(m, c, p, q);
    }
  }

  /** The step of CastleNoCheck for one threatening piece. */
  lemma CastleThreatBack(m: State, t: State, p: PieceId, rook: PieceId, right: bool, k: PieceId, q: PieceId)
    requires Placed(m) && Coherent(t) && CastledKing(m, p, rook, right) && RookJumped(m, t, p, rook, right)
    requires k in t.pieces && t.info[k].kind == King && t.info[k].color == m.info[p].color
    requires q in t.pieces && t.info[q].color != m.info[p].color && Threatens(t, q, t.info[k].pos)
    ensures q in m.pieces && m.info[q].color != m.info[p].color && Threatens(m, q, m.info[p].pos)
  {
    assert k == p;
    if q == rook {
      assert m.board[m.info[p].pos] == p && t.board[m.info[p].pos] == p;
      CornerThreat(m, t, rook, m.info[p].pos, right);
    } else {
      CastleThreatCarried(m, t, p, rook, right, q);
    }
  }

  // ---------------------------------------------------------------------
  // Every legal turn keeps the invariant
  // ---------------------------------------------------------------------

  /** A legal move of the side to move in a position that keeps the
      invariant. */
  predicate LegalTurn(s: State, p: PieceId, d: Square)
  {
    TurnInvariant(s) && p in s.pieces && s.info[p].color == s.turn && OnBoard(d) && Legal(s, p, d)
  }

  /** The turn passes and totalTurns grows by one. */
  function Passed(s: State, u: State): (t: State)
    ensures t.board == u.board && t.info == u.info && t.pieces == u.pieces
    ensures t.turn == Opp(s.turn) && t.totalTurns == s.totalTurns + 1
  {
    u.(turn := Opp(s.turn), totalTurns := s.totalTurns + 1)
  }

  /** The move leaves its square, captures neither the mover nor a King,
      and lands on an empty square when it is en passant. */
  predicate Lands(s: State, p: PieceId, d: Square)
    requires WF(s) && p in s.info
  {
    var c := CapturedBy(s, p, d);
    d != s.info[p].pos && (IsEnPassant(s, p, d) ==> d !in s.board)
    && (c.Some? ==> c.value != p && s.info[c.value].kind != King)
  }

  /** After the move itself the side that moved is not in check. */
  predicate SafeAfter(s: State, p: PieceId, d: Square)
    requires WF(s) && p in s.info && OnBoard(d)
  {
    MoveKeepsWF(s, p, d);
    !InCheck(Move(s, p, d).state, s.turn)
  }

  /** The invariant apart from check carries over to a position whose
      board and roster agree, whose records are kept as above, which
      parks no roster piece, and in which the one piece marked with the new
      turn count (if any) passed over an empty square. */
  lemma SettledAfter(s: State, t: State, marker: Option<PieceId>)
    requires Settled(s) && Placed(t) && Kept(s, t, marker)
    requires forall q :: q in t.promoted ==> q in s.promoted || q !in t.pieces
    requires marker.Some? ==> marker.value in t.pieces && Behind(t.info[marker.value]) !in t.board
    ensures Settled(t)
  {
    KeptHome(s, t, marker);
    MarkedEnPassantClear(t, marker);
  }

  /** The records after the move alone, the turn passed. */
  lemma MoveKept(s: State, p: PieceId, d: Square)
    requires WF(s) && p in s.info && OnBoard(d)
    ensures (MoveKeepsWF(s, p, d); var t := Passed(s, Move(s, p, d).state);
             Kept(s, t, None) && t.promoted == s.promoted && forall q :: q in t.pieces ==> q in s.pieces)
  {
    MoveKeepsWF(s, p, d);
    MoveParts(s, p, d);
  }

  /** A turn whose only effect is the move itself keeps the invariant
      apart from check. */
  lemma PlainSettled(s: State, p: PieceId, d: Square)
    requires Settled(s) && p in s.pieces && OnBoard(d) && Lands(s, p, d)
    ensures (MoveKeepsWF(s, p, d); Settled(Passed(s, Move(s, p, d).state)))
  {
    MoveKeepsWF(s, p, d);
    var m := Move(s, p, d);
    var t := Passed(s, m.state);
    MovePlaced(s, p, d);
    PlacedPassed(s, m.state);
    MoveKept(s, p, d);
    SettledAfter(s, t, None);
  }

  /** Nor does it leave the side that moved in check. */
  lemma PlainSafe(s: State, p: PieceId, d: Square)
    requires Settled(s) && p in s.pieces && OnBoard(d) && Lands(s, p, d) && SafeAfter(s, p, d)
    ensures (MoveKeepsWF(s, p, d); !InCheck(Passed(s, Move(s, p, d).state), s.turn))
  {
    MoveKeepsWF(s, p, d);
    var m := Move(s, p, d);
    PlainSettled(s, p, d);
    MovePlaced(s, p, d);
    NoCheckAfter(m.state, Passed(s, m.state), s.turn);
  }

  /** A double step captures nothing and is not en passant. */
  lemma TwoUpQuiet(s: State, p: PieceId, d: Square)
    requires WF(s) && p in s.info && OnBoard(d) && At(s, s.info[p].pos) == Some(p) && TwoUp(s, p, d)
    ensures Move(s, p, d).captured == None && !Move(s, p, d).enPassant
  {
    assert !EnPassant(s, p, d);
  }

  /** Marking the pawn and passing the turn keep the board, the roster and
      every other record. */
  lemma MarkedPassed(s: State, m: State, p: PieceId, n: int)
    requires WF(m) && p in m.info
    ensures var t := Passed(s, SetMovedTwo(m, p, n));
            t.board == m.board && t.pieces == m.pieces && t.promoted == m.promoted
            && p in t.info && t.info[p].kind == m.info[p].kind && t.info[p].color == m.info[p].color
            && forall q :: q in m.info && q != p ==> q in t.info && t.info[q] == m.info[q]
  {
  }

  /** The records after a double step: the pawn has moved and carries the
      new turn count as its marker, nothing was captured, and the square
      it passed over is empty. */
  lemma TwoUpKept(s: State, p: PieceId, d: Square)
    requires WF(s) && UnmovedAtHome(s) && p in s.pieces && OnBoard(d) && At(s, s.info[p].pos) == Some(p)
    requires s.info[p].kind == Pawn && TwoUp(s, p, d)
    ensures (MoveKeepsWF(s, p, d);
             var t := Passed(s, SetMovedTwo(Move(s, p, d).state, p, s.totalTurns + 1));
             Kept(s, t, Some(p)) && t.promoted == s.promoted && t.pieces == s.pieces
             && Behind(t.info[p]) !in t.board)
  {
    MoveKeepsWF(s, p, d);
    var m := Move(s, p, d).state;
    TwoUpQuiet(s, p, d);
    QuietMove(s, p, d);
    MarkedPassed(s, m, p, s.totalTurns + 1);
    var cur := s.info[p].pos;
    assert cur.row == (if s.info[p].color == White then 1 else 6);
  }

  /** A double step keeps the invariant apart from check. */
  lemma TwoUpSettled(s: State, p: PieceId, d: Square)
    requires Settled(s) && p in s.pieces && OnBoard(d) && Lands(s, p, d)
    requires s.info[p].kind == Pawn && TwoUp(s, p, d)
    ensures (MoveKeepsWF(s, p, d); Settled(Passed(s, SetMovedTwo(Move(s, p, d).state, p, s.totalTurns + 1))))
  {
    MoveKeepsWF(s, p, d);
    var m := Move(s, p, d);
    var u := SetMovedTwo(m.state, p, s.totalTurns + 1);
    MovePlaced(s, p, d);
    PlacedMarked(m.state, p, s.totalTurns + 1);
    PlacedPassed(s, u);
    TwoUpKept(s, p, d);
    SettledAfter(s, Passed(s, u), Some(p));
  }

  /** Nor does it leave the side that moved in check: only the pawn's
      marker changed. */
  lemma TwoUpSafe(s: State, p: PieceId, d: Square)
    requires Settled(s) && p in s.pieces && OnBoard(d) && Lands(s, p, d) && SafeAfter(s, p, d)
    requires s.info[p].kind == Pawn && s.info[p].color == s.turn && TwoUp(s, p, d)
    ensures (MoveKeepsWF(s, p, d); !InCheck(Passed(s, SetMovedTwo(Move(s, p, d).state, p, s.totalTurns + 1)), s.turn))
  {
    MoveKeepsWF(s, p, d);
    var m := Move(s, p, d).state;
    var t := Passed(s, SetMovedTwo(m, p, s.totalTurns + 1));
    TwoUpSettled(s, p, d);
    MovePlaced(s, p, d);
    MarkedPassed(s, m, p, s.totalTurns + 1);
    OthersKept(m, t, p, s.turn);
    NoCheckAfter(m, t, s.turn);
  }

  /** When only one piece of the side `c`, not its King, changed its record,
      every enemy and every King reads the same before and after. */
  lemma OthersKept(m: State, t: State, p: PieceId, c: Color)
    requires (forall q :: q in m.pieces ==> q in m.info) && t.pieces == m.pieces
    requires p in m.info && p in t.info && t.info[p].kind == m.info[p].kind && t.info[p].color == m.info[p].color
    requires m.info[p].color == c && m.info[p].kind != King
    requires forall q :: q in m.info && q != p ==> q in t.info && t.info[q] == m.info[q]
    ensures forall q :: q in t.pieces && (t.info[q].color != c || t.info[q].kind == King) ==>
                        q in m.pieces && m.info[q] == t.info[q]
  {
  }
  /** The mover stays on the roster and stands on its target. */
  lemma MoverStays(s: State, p: PieceId, d: Square)
    requires Placed(s) && p in s.pieces && OnBoard(d) && d != s.info[p].pos
    requires CapturedBy(s, p, d).Some? ==> CapturedBy(s, p, d).value != p && s.info[CapturedBy(s, p, d).value].kind != King
    requires IsEnPassant(s, p, d) ==> d !in s.board
    ensures (MoveKeepsWF(s, p, d); var m := Move(s, p, d).state; p in m.pieces && m.info[p].pos == d)
  {
    MoveKeepsWF(s, p, d);
    MoveShape(s, p, d);
  }

  /** The records after a promotion: those of the moved position plus the
      new piece, which nobody had before. */
  lemma PromoteKept(s: State, m: State, p: PieceId, d: Square, k: Kind)
    requires WF(s) && WF(m) && p in m.info && OnBoard(d) && m.nextId == s.nextId && k != Pawn && k != King
    requires Kept(s, Passed(s, m), None) && forall q :: q in m.pieces ==> q in s.pieces
    ensures var t := Passed(s, Promote(m, p, d, k, 1));
            Kept(s, t, None) && t.promoted == m.promoted + [p]
  {
    var u := Promote(m, p, d, k, 1);
    assert s.nextId !in s.info;
    assert forall q :: q in u.info ==> q in m.info || q == m.nextId;
  }

  /** A promotion keeps the invariant apart from check. */
  lemma PromoteSettled(s: State, p: PieceId, d: Square, k: Kind)
    requires Settled(s) && p in s.pieces && OnBoard(d) && Lands(s, p, d) && Promotes(s, p, d)
    requires k != Pawn && k != King
    ensures (MoveKeepsWF(s, p, d); Settled(Passed(s, Promote(Move(s, p, d).state, p, d, k, 1))))
  {
    MoveKeepsWF(s, p, d);
    var m := Move(s, p, d).state;
    var u := Promote(m, p, d, k, 1);
    MovePlaced(s, p, d);
    MoverStays(s, p, d);
    PromotePlaced(m, p, d, k);
    PlacedPassed(s, u);
    MoveKept(s, p, d);
    PromoteKept(s, m, p, d, k);
    PromoteRoster(m, p, d, k);
    SettledAfter(s, Passed(s, u), None);
  }
  /** Nor does it leave the side that moved in check: the new piece is its
      own, and every other record stays. */
  lemma PromoteSafe(s: State, p: PieceId, d: Square, k: Kind)
    requires Settled(s) && p in s.pieces && OnBoard(d) && Lands(s, p, d) && SafeAfter(s, p, d)
    requires Promotes(s, p, d) && s.info[p].color == s.turn && k != Pawn && k != King
    ensures (MoveKeepsWF(s, p, d); !InCheck(Passed(s, Promote(Move(s, p, d).state, p, d, k, 1)), s.turn))
  {
    MoveKeepsWF(s, p, d);
    var m := Move(s, p, d).state;
    var t := Passed(s, Promote(m, p, d, k, 1));
    PromoteSettled(s, p, d, k);
    MovePlaced(s, p, d);
    MoverStays(s, p, d);
    PromoteOthers(s, m, p, d, k);
    NoCheckAfter(m, t, s.turn);
  }

  /** After a promotion every enemy and every King reads as before, and no
      square was emptied. */
  lemma PromoteOthers(s: State, m: State, p: PieceId, d: Square, k: Kind)
    requires Placed(m) && p in m.pieces && m.info[p].pos == d && OnBoard(d) && k != King
    ensures var t := Passed(s, Promote(m, p, d, k, 1));
            (forall q :: q in t.pieces && (t.info[q].color != m.info[p].color || t.info[q].kind == King) ==>
                         q in m.pieces && m.info[q] == t.info[q])
            && forall sq :: sq in m.board ==> sq in t.board
  {
    PromoteRoster(m, p, d, k);
  }

  /** Parking the pawn a second time, as nextTurn does, changes only
      promotedPawns: the first removal already took the pawn's one roster
      entry, so the second removes nothing. */
  lemma ParkTwice(u: State, p: PieceId, d: Square, k: Kind)
    requires WF(u) && NoDup(u.pieces) && p in u.info && OnBoard(d)
    ensures Promote(u, p, d, k, 2) == Promote(u, p, d, k, 1).(promoted := u.promoted + [p, p])
  {
    RemoveFirstNoDup(u.pieces, p);
  }

  /** Parking an already parked pawn again keeps the invariant apart from
      check, and changes no answer of inCheck. */
  lemma SettledRepark(t: State, p: PieceId, c: Color)
    requires Settled(t) && p in t.promoted
    ensures Settled(t.(promoted := t.promoted + [p]))
    ensures InCheck(t.(promoted := t.promoted + [p]), c) == InCheck(t, c)
  {
    var u := t.(promoted := t.promoted + [p]);
    CoherentView(t, u);
    InCheckView(t, u, c);
  }

  /** Coherence reads neither promotedPawns nor the turn. */
  lemma CoherentView(t: State, u: State)
    requires Coherent(t) && SameView(t, u) && u.pieces == t.pieces && u.removed == t.removed && WF(u)
    ensures Coherent(u)
  {
    forall q, d | q in t.info && OnBoard(d)
      ensures IsEnPassant(u, q, d) == IsEnPassant(t, q, d)
    {
      IsEnPassantSame(t, u, q, d);
    }
  }

  /** Nor does inCheck, in a coherent position. */
  lemma InCheckView(t: State, u: State, c: Color)
    requires Coherent(t) && SameView(t, u) && u.pieces == t.pieces && WF(u)
    ensures InCheck(u, c) == InCheck(t, c)
  {
    assert KingOf(u, c) == KingOf(t, c);
    if KingPosition(t, c).Some? {
      var k := KingPosition(t, c).value;
      assert At(t, k) == Some(KingOf(t, c).value);
      InCheckIff(t, c);
      InCheckIff(u, c);
      forall q | q in t.pieces
        ensures Threatens(u, q, k) == Threatens(t, q, k)
      {
        ThreatensView(t, u, q, k);
      }
    }
  }

  /** The same once the turn has passed. */
  lemma ParkTwicePassed(s: State, m: State, p: PieceId, d: Square, k: Kind)
    requires WF(m) && NoDup(m.pieces) && p in m.info && OnBoard(d)
    ensures var once := Passed(s, Promote(m, p, d, k, 1));
            Passed(s, Promote(m, p, d, k, 2)) == once.(promoted := once.promoted + [p]) && p in once.promoted
  {
    ParkTwice(m, p, d, k);
    var once := Passed(s, Promote(m, p, d, k, 1));
    assert once.promoted == m.promoted + [p];
    assert once.promoted + [p] == m.promoted + [p, p];
  }

  /** So a position whose only difference is a second parking of an
      already parked pawn keeps the invariant and leaves c out of check
      exactly when the first did. */
  lemma RepackSettled(once: State, twice: State, p: PieceId, c: Color)
    requires Settled(once) && !InCheck(once, c) && p in once.promoted
    requires twice == once.(promoted := once.promoted + [p])
    ensures Settled(twice) && !InCheck(twice, c)
  {
    SettledRepark(once, p, c);
  }
  /** Where castling starts and lands: an unmoved King on column 4 moves to
      column 6 (2), the corner holds an unmoved piece that is not a King,
      and the squares the King and the jumper land on are empty, as is
      column 1 on the long side. */
  lemma CastleGeometry(s: State, p: PieceId, d: Square, right: bool)
    requires Coherent(s) && UnmovedAtHome(s) && p in s.pieces && OnBoard(d)
    requires s.info[p].kind == King && KingCaptures(s, p, d)
    requires if right then s.info[p].pos.col + 2 == d.col else s.info[p].pos.col - 2 == d.col
    ensures var cur := s.info[p].pos;
            var corner := Square(cur.row, CornerCol(right));
            cur.col == 4 && d == Square(cur.row, if right then 6 else 2)
            && corner in s.board && s.info[s.board[corner]].kind != King
            && d !in s.board && Square(cur.row, JumpCol(right)) !in s.board
            && (!right ==> Square(cur.row, 1) !in s.board)
  {
    var cur := s.info[p].pos;
    assert !Adjacent(cur, d);
    assert At(s, cur) == Some(p);
    if right {
      assert CastlingShort(s, p, d);
      ShortPathClear(s, p);
    } else {
      assert CastlingLong(s, p, d);
      LongPathClear(s, p);
    }
    var corner := Square(cur.row, CornerCol(right));
    assert s.board[corner] in s.pieces;
  }

  /** The King's half of castling: a quiet move after which the King stands
      on column 6 (2) beside the corner piece's path. */
  lemma CastleKingHalf(s: State, p: PieceId, d: Square, right: bool)
    requires Placed(s) && p in s.pieces && s.info[p].kind == King
    requires var cur := s.info[p].pos;
             var corner := Square(cur.row, CornerCol(right));
             cur.col == 4 && d == Square(cur.row, if right then 6 else 2)
             && corner in s.board && s.info[s.board[corner]].kind != King
             && d !in s.board && Square(cur.row, JumpCol(right)) !in s.board
             && (!right ==> Square(cur.row, 1) !in s.board)
    ensures (MoveKeepsWF(s, p, d);
             var m := Move(s, p, d).state;
             var corner := Square(d.row, CornerCol(right));
             Placed(m) && QuietlyMoved(s, m, p, d) && corner in m.board
             && CastledKing(m, p, m.board[corner], right) && Square(d.row, JumpCol(right)) !in m.board)
  {
    MoveKeepsWF(s, p, d);
    var cur := s.info[p].pos;
    assert At(s, cur) == Some(p);
    assert Move(s, p, d).captured == None && !Move(s, p, d).enPassant;
    QuietMove(s, p, d);
    MovePlaced(s, p, d);
    var m := Move(s, p, d).state;
    var corner := Square(cur.row, CornerCol(right));
    assert m.board[corner] == s.board[corner];
    assert s.board[corner] in s.pieces;
  }

  /** The corner piece's half: a quiet move to column 5 (3). */
  lemma CastleRookHalf(s: State, m: State, p: PieceId, rook: PieceId, right: bool)
    requires Placed(m) && CastledKing(m, p, rook, right)
    requires Square(m.info[p].pos.row, JumpCol(right)) !in m.board
    ensures var jump := Square(m.info[p].pos.row, JumpCol(right));
            var u := Move(m, rook, jump).state;
            Placed(u) && QuietlyMoved(m, u, rook, jump) && RookJumped(m, Passed(s, u), p, rook, right)
  {
    var d := m.info[p].pos;
    var jump := Square(d.row, JumpCol(right));
    assert At(m, m.info[rook].pos) == Some(rook);
    RookJumpPlain(m, rook, jump);
    QuietMove(m, rook, jump);
    MovePlaced(m, rook, jump);
    JumpLeaves(s, m, Move(m, rook, jump).state, p, rook, right);
  }

  /** What a quiet jump of the corner piece leaves of the castled
      position. */
  lemma JumpLeaves(s: State, m: State, u: State, p: PieceId, rook: PieceId, right: bool)
    requires Placed(m) && CastledKing(m, p, rook, right)
    requires QuietlyMoved(m, u, rook, Square(m.info[p].pos.row, JumpCol(right)))
    ensures RookJumped(m, Passed(s, u), p, rook, right)
  {
    assert m.board[m.info[p].pos] == p;
  }
  /** A second quiet move, of a piece that had not moved this turn, keeps
      the records of the turn. */
  lemma KeptQuiet(s: State, m: State, u: State, q: PieceId, sq: Square)
    requires WF(s) && WF(m) && WF(u) && q in m.info && Kept(s, Passed(s, m), None)
    requires q in s.info && m.info[q] == s.info[q]
    requires QuietlyMoved(m, u, q, sq)
    ensures Kept(s, Passed(s, u), None)
  {
  }

  /** Castling keeps the invariant apart from check. */
  lemma CastleSettled(s: State, p: PieceId, d: Square, right: bool)
    requires Settled(s) && p in s.pieces && OnBoard(d)
    requires s.info[p].kind == King && KingCaptures(s, p, d)
    requires if right then s.info[p].pos.col + 2 == d.col else s.info[p].pos.col - 2 == d.col
    ensures (MoveKeepsWF(s, p, d);
             var m := Move(s, p, d).state;
             Square(s.info[p].pos.row, CornerCol(right)) in m.board
             && Settled(Passed(s, CastleRook(m, s.info[p].pos.row, right))))
  {
    MoveKeepsWF(s, p, d);
    CastleGeometry(s, p, d, right);
    CastleKingHalf(s, p, d, right);
    var m := Move(s, p, d).state;
    var rook := m.board[Square(d.row, CornerCol(right))];
    var jump := Square(d.row, JumpCol(right));
    CastleRookHalf(s, m, p, rook, right);
    var u := Move(m, rook, jump).state;
    assert CastleRook(m, s.info[p].pos.row, right) == u;
    PlacedPassed(s, u);
    MoveKept(s, p, d);
    KeptQuiet(s, m, u, rook, jump);
    SettledAfter(s, Passed(s, u), None);
  }

  /** Nor does it leave the King in check: it was safe after its own half,
      and the corner piece's jump opens no line onto it. */
  lemma CastleSafe(s: State, p: PieceId, d: Square, right: bool)
    requires Settled(s) && p in s.pieces && OnBoard(d) && SafeAfter(s, p, d) && s.info[p].color == s.turn
    requires s.info[p].kind == King && KingCaptures(s, p, d)
    requires if right then s.info[p].pos.col + 2 == d.col else s.info[p].pos.col - 2 == d.col
    ensures (MoveKeepsWF(s, p, d);
             var m := Move(s, p, d).state;
             Square(s.info[p].pos.row, CornerCol(right)) in m.board
             && !InCheck(Passed(s, CastleRook(m, s.info[p].pos.row, right)), s.turn))
  {
    MoveKeepsWF(s, p, d);
    CastleSettled(s, p, d, right);
    CastleGeometry(s, p, d, right);
    CastleKingHalf(s, p, d, right);
    var m := Move(s, p, d).state;
    var rook := m.board[Square(d.row, CornerCol(right))];
    var jump := Square(d.row, JumpCol(right));
    CastleRookHalf(s, m, p, rook, right);
    var u := Move(m, rook, jump).state;
    assert CastleRook(m, s.info[p].pos.row, right) == u;
    CastleNoCheck(m, Passed(s, u), p, rook, right);
  }
  /** Whatever the turn's extra effect (promotion, double step, the Rook's
      half of castling or none), the position after it, the turn passed,
      keeps the invariant apart from check and leaves the side that moved
      out of check. */
  lemma EffectKeeps(s: State, p: PieceId, d: Square, data: TurnData, k: Kind, parks: nat)
    requires Settled(s) && p in s.pieces && s.info[p].color == s.turn && OnBoard(d)
    requires k in {Queen, Rook, Bishop, Knight} && 1 <= parks <= 2
    requires Lands(s, p, d) && SafeAfter(s, p, d) && IsValidCapture(s, p, d)
    requires (MoveKeepsWF(s, p, d);
              var m := Move(s, p, d);
              var cur := s.info[p].pos;
              data.promotion == Promotes(s, p, d)
              && data.twoUp == (s.info[p].kind == Pawn && TwoUp(s, p, d))
              && data.shortCastle == (!data.promotion && !data.twoUp && Castles(s, m.state, p, cur, d, true))
              && data.longCastle == (!data.promotion && !data.twoUp && !data.shortCastle
                                     && Castles(s, m.state, p, cur, d, false)))
    ensures (MoveKeepsWF(s, p, d);
             var t := Passed(s, Effect(s, p, d, k, parks, data));
             Settled(t) && !InCheck(t, s.turn))
  {
    MoveKeepsWF(s, p, d);
    if data.promotion {
      PromoteCase(s, p, d, data, k, parks);
    } else {
      assert Effect(s, p, d, k, parks, data) == Effect(s, p, d, Queen, 1, data);
      if data.twoUp {
        TwoUpCase(s, p, d, data);
      } else if data.shortCastle || data.longCastle {
        CastleCase(s, p, d, data);
      } else {
        PlainCase(s, p, d, data);
      }
    }
  }

  /** EffectKeeps for a promotion. */
  lemma PromoteCase(s: State, p: PieceId, d: Square, data: TurnData, k: Kind, parks: nat)
    requires Settled(s) && p in s.pieces && s.info[p].color == s.turn && OnBoard(d)
    requires Lands(s, p, d) && SafeAfter(s, p, d) && data.promotion && Promotes(s, p, d)
    requires !data.shortCastle && !data.longCastle
    requires k != Pawn && k != King && 1 <= parks <= 2
    ensures (MoveKeepsWF(s, p, d);
             var t := Passed(s, Effect(s, p, d, k, parks, data));
             Settled(t) && !InCheck(t, s.turn))
  {
    MoveKeepsWF(s, p, d);
    var m := Move(s, p, d).state;
    var u := Promote(m, p, d, k, parks);
    assert Effect(s, p, d, k, parks, data) == u;
    var once := Passed(s, Promote(m, p, d, k, 1));
    assert Settled(once) && !InCheck(once, s.turn) by {
      PromoteOnce(s, p, d, k);
    }
    if parks == 2 {
      MovePlaced(s, p, d);
      ParkTwicePassed(s, m, p, d, k);
      RepackSettled(once, Passed(s, u), p, s.turn);
    }
  }

  /** A promotion that parks the pawn once, as nextTurnAutoQueen does. */
  lemma PromoteOnce(s: State, p: PieceId, d: Square, k: Kind)
    requires Settled(s) && p in s.pieces && s.info[p].color == s.turn && OnBoard(d)
    requires Lands(s, p, d) && SafeAfter(s, p, d) && Promotes(s, p, d) && k != Pawn && k != King
    ensures (MoveKeepsWF(s, p, d);
             var t := Passed(s, Promote(Move(s, p, d).state, p, d, k, 1));
             Settled(t) && !InCheck(t, s.turn))
  {
    PromoteSettled(s, p, d, k);
    PromoteSafe(s, p, d, k);
  }

  /** EffectKeeps for a double step. */
  lemma TwoUpCase(s: State, p: PieceId, d: Square, data: TurnData)
    requires Settled(s) && p in s.pieces && s.info[p].color == s.turn && OnBoard(d)
    requires Lands(s, p, d) && SafeAfter(s, p, d) && !data.promotion && data.twoUp
    requires !data.shortCastle && !data.longCastle
    requires s.info[p].kind == Pawn && TwoUp(s, p, d)
    ensures (MoveKeepsWF(s, p, d);
             var t := Passed(s, Effect(s, p, d, Queen, 1, data));
             Settled(t) && !InCheck(t, s.turn))
  {
    MoveKeepsWF(s, p, d);
    EffectOfTwoUp(s, p, d, Queen, data);
    TwoUpSettled(s, p, d);
    TwoUpSafe(s, p, d);
  }

  /** EffectKeeps for castling. */
  lemma CastleCase(s: State, p: PieceId, d: Square, data: TurnData)
    requires Settled(s) && p in s.pieces && s.info[p].color == s.turn && OnBoard(d)
    requires SafeAfter(s, p, d) && !data.promotion && !data.twoUp
    requires s.info[p].kind == King && KingCaptures(s, p, d)
    requires data.shortCastle || data.longCastle
    requires data.shortCastle ==> s.info[p].pos.col + 2 == d.col
    requires !data.shortCastle ==> s.info[p].pos.col - 2 == d.col
    ensures (MoveKeepsWF(s, p, d);
             Square(s.info[p].pos.row, CornerCol(data.shortCastle)) in Move(s, p, d).state.board
             && var t := Passed(s, Effect(s, p, d, Queen, 1, data));
             Settled(t) && !InCheck(t, s.turn))
  {
    MoveKeepsWF(s, p, d);
    CastleSettled(s, p, d, data.shortCastle);
    CastleSafe(s, p, d, data.shortCastle);
    assert Effect(s, p, d, Queen, 1, data) == CastleRook(Move(s, p, d).state, s.info[p].pos.row, data.shortCastle);
  }

  /** EffectKeeps for a turn that is only the move. */
  lemma PlainCase(s: State, p: PieceId, d: Square, data: TurnData)
    requires Settled(s) && p in s.pieces && OnBoard(d)
    requires Lands(s, p, d) && SafeAfter(s, p, d)
    requires !data.promotion && !data.twoUp && !data.shortCastle && !data.longCastle
    ensures (MoveKeepsWF(s, p, d);
             var t := Passed(s, Effect(s, p, d, Queen, 1, data));
             Settled(t) && !InCheck(t, s.turn))
  {
    MoveKeepsWF(s, p, d);
    assert Effect(s, p, d, Queen, 1, data) == Move(s, p, d).state;
    PlainSettled(s, p, d);
    PlainSafe(s, p, d);
  }

  /** Every legal turn keeps the invariant: the board, the records and the
      roster still agree, unmoved pieces are at home, the en passant
      markers are sound, and the side that just moved is not in check. */
  lemma TurnKeepsInvariant(s: State, p: PieceId, d: Square)
    requires LegalTurn(s, p, d)
    ensures TurnInvariant(NextTurnAutoQueen(s, p, d).state)
  {
    var r := NextTurnAutoQueen(s, p, d);
    NextTurnShape(s, p, d, Queen, 1);
    LegalCapture(s, p, d);
    assert r.state == Passed(s, Rewind(r.state));
    EffectKeeps(s, p, d, r.data, Queen, 1);
  }

  /** The same for Game.nextTurn, whatever class the player promotes to:
      parking the pawn twice leaves it off the roster, which is all the
      invariant asks of promotedPawns. */
  lemma NextTurnKeepsInvariant(s: State, p: PieceId, d: Square, choice: Kind)
    requires LegalTurn(s, p, d) && choice in {Queen, Rook, Bishop, Knight}
    ensures TurnInvariant(NextTurn(s, p, d, choice).state)
  {
    var r := NextTurn(s, p, d, choice);
    NextTurnShape(s, p, d, choice, 2);
    LegalCapture(s, p, d);
    assert r.state == Passed(s, Rewind(r.state));
    EffectKeeps(s, p, d, r.data, choice, 2);
  }
  /** The starting position keeps the invariant: it is coherent, every
      piece is unmoved and at home, no marker is set, nothing is parked,
      and Black, which formally moved last, is not in check. */
  lemma InitialInvariant(s: State)
    requires Initial(s)
    ensures TurnInvariant(s)
  {
    InitialCoherent(s);
    InitialInfo(s);
    StartInvariant(s);
  }

  /** The same for any coherent position whose records are those the
      constructor creates, with White to move, no turn played and nothing
      parked. */
  lemma StartInvariant(s: State)
    requires Coherent(s) && forall id :: id in s.info ==> id < 32 && s.info[id] == StartRec(id)
    requires s.turn == White && s.totalTurns == 0 && s.promoted == []
    ensures TurnInvariant(s)
  {
    StartHome(s);
    StartNoCheck(s);
  }

  /** Every starting piece is unmoved and at home. */
  lemma StartHome(s: State)
    requires WF(s) && s.totalTurns == 0 && forall id :: id in s.info ==> id < 32 && s.info[id] == StartRec(id)
    ensures UnmovedAtHome(s) && Marked(s)
  {
    forall q | q in s.pieces && s.info[q].nMoves == 0
      ensures s.info[q].kind == King ==> s.info[q].pos.col == 4
    {
      if s.info[q].kind == King {
        assert q == 4 || q == 12;
      }
    }
  }

  /** Black is not in check at the start. */
  lemma StartNoCheck(s: State)
    requires Placed(s) && forall id :: id in s.info ==> id < 32 && s.info[id] == StartRec(id)
    ensures !InCheck(s, Black)
  {
    if InCheck(s, Black) {
      var k, q := CheckWitness(s, Black);
      assert k == 12 && s.info[k].pos == Square(7, 4);
      StartNoThreat(s, q);
      assert false;
    }
  }

  /** No White starting piece threatens e8. */
  lemma StartNoThreat(s: State, q: PieceId)
    requires WF(s) && q in s.info && q < 32 && s.info[q] == StartRec(q) && StartRec(q).color == White
    ensures !Threatens(s, q, Square(7, 4))
  {
    StartQuiet(q);
  }

  /** The only squares a White starting piece could threaten by its
      geometry alone lie on rows 0 to 3; e8 is not among them. */
  lemma StartQuiet(q: PieceId)
    requires q < 32 && StartRec(q).color == White
    ensures var r := StartRec(q);
            var d := Square(7, 4);
            (r.kind == Knight ==> Abs(r.pos.row - d.row) > 2)
            && (r.kind == King ==> !Adjacent(r.pos, d))
            && (r.kind == Pawn ==> r.pos.row == 1)
            && (r.kind == Rook ==> d.col != r.pos.col && d.row != r.pos.row)
            && ((r.kind == Bishop || r.kind == Queen) ==>
                  Abs(d.col - r.pos.col) != Abs(d.row - r.pos.row) && d.col != r.pos.col && d.row != r.pos.row)
  {
  }
  /** The invariant does not depend on the order of the roster. */
  lemma TurnInvariantSame(s: State, t: State)
    requires TurnInvariant(s) && SameButOrder(s, t)
    ensures TurnInvariant(t)
  {
    CoherentSame(s, t);
    assert forall q :: q in t.pieces <==> q in s.pieces by {
      forall q
        ensures q in t.pieces <==> q in s.pieces
      {
        assert q in t.pieces <==> q in multiset(t.pieces);
        assert q in s.pieces <==> q in multiset(s.pieces);
      }
    }
    var c := Opp(s.turn);
    if KingOf(s, c).Some? {
      assert At(s, s.info[KingOf(s, c).value].pos) == Some(KingOf(s, c).value);
    }
    InCheckSame(s, t, c);
  }
}
