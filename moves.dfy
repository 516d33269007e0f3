/** Piece.move and Piece.moveBack: the reversible board mutation every trial
    move, every turn and every search step is built from. */
module Moves {
  import opened Util
  import opened Squares
  import opened Pieces
  import opened Rules

  /** What move() hands back: the captured piece (if any) and whether the
      move was an en passant capture; plus the state it leaves. */
  datatype Moved = Moved(state: State, captured: Option<PieceId>, enPassant: bool)

  /** The occupancy after move(): the en passant square (if any) and the
      mover's square are emptied, and d holds the mover. */
  function MovedBoard(b: Occupancy, p: PieceId, cur: Square, d: Square, epSquare: Option<Square>): (r: Occupancy)
    ensures Occupant(r, d) == Some(p)
    ensures forall sq :: sq != d && sq != cur && Some(sq) != epSquare ==> Occupant(r, sq) == Occupant(b, sq)
  {
    ((if epSquare.Some? then b - {epSquare.value} else b) - {cur})[d := p]
  }

  /** The occupancy after moveBack(): newPos is emptied, oldPos holds the
      piece again, and the captured piece returns to newPos, or for en
      passant to (oldPos row, newPos column). */
  function RestoredBoard(b: Occupancy, p: PieceId, oldPos: Square, newPos: Square,
                         captured: Option<PieceId>, wasEnPassant: bool): Occupancy
  {
    var b1 := (b - {newPos})[oldPos := p];
    if wasEnPassant then SetOccupant(b1, Square(oldPos.row, newPos.col), captured)
    else if captured.Some? then b1[newPos := captured.value]
    else b1
  }

  /** On the board alone, moveBack undoes move when the mover stood on its
      own square and an en passant destination was empty. */
  lemma BoardRoundTrip(b: Occupancy, p: PieceId, cur: Square, d: Square, ep: bool)
    requires cur in b && b[cur] == p
    requires ep ==> d !in b && d.row != cur.row && d.col != cur.col
    ensures var e := Square(cur.row, d.col);
            var captured := if ep then Occupant(b, e) else Occupant(b, d);
            RestoredBoard(MovedBoard(b, p, cur, d, if ep then Some(e) else None), p, cur, d, captured, ep) == b
  {
    var e := Square(cur.row, d.col);
    var captured := if ep then Occupant(b, e) else Occupant(b, d);
    var r := RestoredBoard(MovedBoard(b, p, cur, d, if ep then Some(e) else None), p, cur, d, captured, ep);
    forall sq ensures Occupant(r, sq) == Occupant(b, sq) {
    }
    assert forall sq :: sq in r <==> sq in b;
  }

  /** The piece move() captures: the passed pawn for en passant, otherwise
      the occupant of d (which may be the mover itself when d is its own
      square). */
  function CapturedBy(s: State, p: PieceId, d: Square): (c: Option<PieceId>)
    requires WF(s) && p in s.info
    ensures c.Some? ==> c.value in s.info
    ensures IsEnPassant(s, p, d) ==> c == At(s, Square(s.info[p].pos.row, d.col))
    ensures !IsEnPassant(s, p, d) ==> c == At(s, d)
  {
    if IsEnPassant(s, p, d) then At(s, Square(s.info[p].pos.row, d.col)) else At(s, d)
  }

  /** The roster after move() took c off it: once more for en passant (the
      second removal then finds nothing), and not at all for a King. */
  function RosterAfterCapture(pieces: seq<PieceId>, c: Option<PieceId>, ep: bool, takes: bool): (r: seq<PieceId>)
    requires takes ==> c.Some?
    ensures forall id :: id in r ==> id in pieces
    ensures !takes && !ep ==> r == pieces
    ensures forall id :: id in pieces && (c.None? || id != c.value) ==> id in r
  {
    var once := if ep && c.Some? then RemoveFirst(pieces, c.value) else pieces;
    if takes then RemoveFirst(once, c.value) else once
  }

  /** A captured piece leaves the roster unless it is a King. */
  predicate Takes(s: State, c: Option<PieceId>)
    requires c.Some? ==> c.value in s.info
  {
    c.Some? && s.info[c.value].kind != King
  }

  /** Piece.move(newPos) for piece p. */
  function Move(s: State, p: PieceId, d: Square): (m: Moved)
    requires WF(s) && p in s.info && OnBoard(d)
    ensures m.captured == CapturedBy(s, p, d) && m.enPassant == IsEnPassant(s, p, d)
    ensures m.state.info == s.info[p := s.info[p].(pos := d, nMoves := s.info[p].nMoves + 1)]
    ensures m.state.turn == s.turn && m.state.totalTurns == s.totalTurns
    ensures m.state.promoted == s.promoted && m.state.nextId == s.nextId
  {
    var r := s.info[p];
    var ep := IsEnPassant(s, p, d);
    var captured := CapturedBy(s, p, d);
    var takes := Takes(s, captured);
    Moved(s.(board := MovedBoard(s.board, p, r.pos, d, if ep then Some(Square(r.pos.row, d.col)) else None),
             info := s.info[p := r.(pos := d, nMoves := r.nMoves + 1)],
             pieces := RosterAfterCapture(s.pieces, captured, ep, takes),
             removed := if takes then s.removed + [captured.value] else s.removed),
          captured, ep)
  }

  /** Piece.moveBack(oldPos, captured, wasEnPassant) for piece p. */
  function MoveBack(s: State, p: PieceId, oldPos: Square, captured: Option<PieceId>, wasEnPassant: bool): (t: State)
    requires WF(s) && p in s.info && OnBoard(oldPos)
    requires captured.Some? ==> captured.value in s.info
    ensures t.info == s.info[p := s.info[p].(pos := oldPos, nMoves := s.info[p].nMoves - 1)]
    ensures t.turn == s.turn && t.totalTurns == s.totalTurns
    ensures t.promoted == s.promoted && t.nextId == s.nextId
  {
    var r := s.info[p];
    var back := captured.Some? && s.info[captured.value].kind != King;
    s.(board := RestoredBoard(s.board, p, oldPos, r.pos, captured, wasEnPassant),
       info := s.info[p := r.(pos := oldPos, nMoves := r.nMoves - 1)],
       pieces := if back then s.pieces + [captured.value] else s.pieces,
       removed := if back then RemoveFirst(s.removed, captured.value) else s.removed)
  }

  /** move() in terms of its board and roster components. */
  lemma MoveParts(s: State, p: PieceId, d: Square)
    requires WF(s) && p in s.info && OnBoard(d)
    ensures var m := Move(s, p, d);
            var cur := s.info[p].pos;
            m.state.board == MovedBoard(s.board, p, cur, d, if m.enPassant then Some(Square(cur.row, d.col)) else None)
            && m.state.pieces == RosterAfterCapture(s.pieces, m.captured, m.enPassant, Takes(s, m.captured))
            && m.state.removed == (if Takes(s, m.captured) then s.removed + [m.captured.value] else s.removed)
  {
  }

  /** The en passant flag of a move. */
  predicate IsEnPassant(s: State, p: PieceId, d: Square)
    requires WF(s) && p in s.info
  {
    var occ := At(s, s.info[p].pos);
    occ.Some? && s.info[occ.value].kind == Pawn && EnPassant(s, occ.value, d)
  }

  /** The conditions under which moveBack exactly undoes move: the mover
      stands on its own square, the captured piece (if any, and not a King)
      is on the roster and not already in `removed`, the roster has no
      repeated entry, and an en passant destination is empty. */
  predicate Undoable(s: State, p: PieceId, d: Square)
    requires WF(s) && p in s.info && OnBoard(d)
  {
    var c := CapturedBy(s, p, d);
    At(s, s.info[p].pos) == Some(p)
    && NoDup(s.pieces)
    && (IsEnPassant(s, p, d) ==> d !in s.board)
    && (c.Some? && s.info[c.value].kind != King ==> c.value in s.pieces && c.value !in s.removed)
  }

  /** move keeps the state well formed. */
  lemma MoveKeepsWF(s: State, p: PieceId, d: Square)
    requires WF(s) && p in s.info && OnBoard(d)
    ensures WF(Move(s, p, d).state)
  {
    var t := Move(s, p, d).state;
    assert forall sq :: sq in t.board ==> OnBoard(sq) && t.board[sq] in t.info;
    assert forall id :: id in t.info ==> OnBoard(t.info[id].pos) && t.info[id].nMoves >= 0 && id < t.nextId;
    assert forall id :: id in t.pieces ==> id in t.info;
    assert forall id :: id in t.removed ==> id in t.info;
  }

  /** moveBack keeps the state well formed when the piece has moved before. */
  lemma MoveBackKeepsWF(s: State, p: PieceId, oldPos: Square, captured: Option<PieceId>, wasEnPassant: bool)
    requires WF(s) && p in s.info && OnBoard(oldPos)
    requires captured.Some? ==> captured.value in s.info
    requires s.info[p].nMoves >= 1
    ensures WF(MoveBack(s, p, oldPos, captured, wasEnPassant))
  {
    var t := MoveBack(s, p, oldPos, captured, wasEnPassant);
    assert forall sq :: sq in t.board ==> OnBoard(sq) && t.board[sq] in t.info;
    assert forall id :: id in t.info ==> OnBoard(t.info[id].pos) && t.info[id].nMoves >= 0 && id < t.nextId;
    assert forall id :: id in t.pieces ==> id in t.info;
    assert forall id :: id in t.removed ==> id in t.info;
  }

  /** moveBack(oldPos, captured, enPassant) after move(newPos) puts every
      square's occupant back. */
  lemma MoveBackRestoresBoard(s: State, p: PieceId, d: Square)
    requires WF(s) && p in s.info && OnBoard(d) && Undoable(s, p, d)
    ensures var m := Move(s, p, d);
            MoveBack(m.state, p, s.info[p].pos, m.captured, m.enPassant).board == s.board
  {
    var m := Move(s, p, d);
    MoveParts(s, p, d);
    if m.enPassant {
      EnPassantShape(s, p, d);
    }
    BoardRoundTrip(s.board, p, s.info[p].pos, d, m.enPassant);
  }

  /** On the lists alone: taking c off the roster (twice for en passant,
      where the second removal finds nothing) and appending it to `removed`,
      then appending it back and taking it off `removed`, restores `removed`
      exactly and the roster as a multiset. */
  lemma ListsRoundTrip(pieces: seq<PieceId>, removed: seq<PieceId>, c: PieceId, ep: bool)
    requires NoDup(pieces) && c in pieces && c !in removed
    ensures var once := if ep then RemoveFirst(pieces, c) else pieces;
            var taken := RemoveFirst(once, c);
            multiset(taken + [c]) == multiset(pieces) && |taken + [c]| == |pieces|
            && RemoveFirst(removed + [c], c) == removed
  {
    RemoveFirstAppended(removed, c);
    RemoveFirstMultiset(pieces, c);
    if ep {
      CountAtMostOne(pieces, c);
      var once := RemoveFirst(pieces, c);
      assert c !in multiset(once);
      RemoveFirstMultiset(once, c);
    }
  }

  /** ... and the roster as a multiset (a captured piece comes back at the
      end of the list), and `removed` exactly. */
  lemma MoveBackRestoresLists(s: State, p: PieceId, d: Square)
    requires WF(s) && p in s.info && OnBoard(d) && Undoable(s, p, d)
    ensures var m := Move(s, p, d);
            var t := MoveBack(m.state, p, s.info[p].pos, m.captured, m.enPassant);
            multiset(t.pieces) == multiset(s.pieces) && |t.pieces| == |s.pieces| && t.removed == s.removed
  {
    var m := Move(s, p, d);
    MoveParts(s, p, d);
    if m.captured.Some? && s.info[m.captured.value].kind != King {
      ListsRoundTrip(s.pieces, s.removed, m.captured.value, m.enPassant);
    } else {
      // en passant always takes a Pawn
      assert !m.enPassant by {
        if m.enPassant {
          EnPassantShape(s, p, d);
        }
      }
    }
  }

  /** Moving a piece's record to d and back restores the record. */
  lemma InfoRoundTrip(info: map<PieceId, PieceRec>, p: PieceId, d: Square)
    requires p in info
    ensures var r := info[p];
            var moved := info[p := r.(pos := d, nMoves := r.nMoves + 1)];
            moved[p := moved[p].(pos := r.pos, nMoves := moved[p].nMoves - 1)] == info
  {
  }

  /** moveBack(oldPos, captured, enPassant) after move(newPos) restores every
      square, every piece's fields and `removed` exactly, and the roster as a
      multiset. */
  lemma MoveBackUndoesMove(s: State, p: PieceId, d: Square)
    requires WF(s) && p in s.info && OnBoard(d) && Undoable(s, p, d)
    ensures var m := Move(s, p, d);
            var t := MoveBack(m.state, p, s.info[p].pos, m.captured, m.enPassant);
            t.board == s.board && t.info == s.info
            && multiset(t.pieces) == multiset(s.pieces) && |t.pieces| == |s.pieces|
            && t.removed == s.removed && t.promoted == s.promoted
            && t.turn == s.turn && t.totalTurns == s.totalTurns && t.nextId == s.nextId
  {
    MoveBackRestoresBoard(s, p, d);
    MoveBackRestoresLists(s, p, d);
    InfoRoundTrip(s.info, p, d);
  }

  // ---------------------------------------------------------------------
  // A measure for the castling recursion
  // ---------------------------------------------------------------------

  /** The squares whose occupant has never moved. */
  function UnmovedSquares(s: State): set<Square>
  {
    set sq | sq in s.board && s.board[sq] in s.info && s.info[s.board[sq]].nMoves == 0
  }

  /** The occupant of p's square has never moved (the first test of the
      King's castling checks). */
  predicate OccupantUnmoved(s: State, p: PieceId)
    requires WF(s) && p in s.info
  {
    s.info[p].pos in s.board && s.info[s.board[s.info[p].pos]].nMoves == 0
  }

  /** A move never adds an unmoved occupant, and it removes one when the
      mover's square held an unmoved piece. */
  lemma MoveShrinksUnmoved(s: State, p: PieceId, d: Square)
    requires WF(s) && p in s.info && OnBoard(d)
    ensures UnmovedSquares(Move(s, p, d).state) <= UnmovedSquares(s)
    ensures OccupantUnmoved(s, p) ==> |UnmovedSquares(Move(s, p, d).state)| < |UnmovedSquares(s)|
  {
    MoveKeepsWF(s, p, d);
    var t := Move(s, p, d).state;
    var cur := s.info[p].pos;
    forall sq | sq in UnmovedSquares(t)
      ensures sq in UnmovedSquares(s)
    {
      assert sq != d;
    }
    if OccupantUnmoved(s, p) {
      assert cur in UnmovedSquares(s) && cur !in UnmovedSquares(t);
      ProperSubsetSmaller(UnmovedSquares(t), UnmovedSquares(s));
    }
  }
}
