/** Piece.isValidMove, Piece.givesCheck and Piece.getLegalMoves, and the
    Game queries built on them: getLegalMoves, isUnplayable, isCheckMate,
    isStaleMate and isDraw.

    isValidMove makes a trial move, asks inCheck, and takes the move back.
    moveBack puts a captured piece back at the end of the roster, so the
    state that follows a trial differs from the one before it in the order
    of `pieces`. The lemmas below show that in a coherent position (one that
    play can reach) this reordering never changes an answer, so every
    query equals a definition stated on the position alone. */
module Legality {
  import opened Util
  import opened Squares
  import opened Pieces
  import opened Rules
  import opened Moves
  import opened Attacks
  import opened Generators

  // ---------------------------------------------------------------------
  // Coherent positions
  // ---------------------------------------------------------------------

  /** An en passant destination is empty: it is the square the enemy pawn
      passed over on the half-move just played. */
  predicate EnPassantClear(s: State)
    requires WF(s)
  {
    forall p, d :: p in s.info && OnBoard(d) && IsEnPassant(s, p, d) ==> d !in s.board
  }

  /** The board and the roster describe the same pieces: every roster piece
      stands on the square it records, every occupant records the square it
      stands on, every occupant is on the roster, the
      roster has no repeated entry and shares nothing with `removed`, each
      side has at most one King, and en passant lands on an empty square. */
  predicate Coherent(s: State)
  {
    WF(s)
    && NoDup(s.pieces)
    && (forall q :: q in s.pieces ==> At(s, s.info[q].pos) == Some(q))
    && (forall sq :: sq in s.board ==> s.info[s.board[sq]].pos == sq)
    && (forall sq :: sq in s.board ==> s.board[sq] in s.pieces)
    && (forall q :: q in s.removed ==> q !in s.pieces)
    && KingsUnique(s)
    && EnPassantClear(s)
  }

  /** In a coherent position moveBack undoes every move of a roster piece. */
  lemma CoherentUndoable(s: State, p: PieceId, d: Square)
    requires Coherent(s) && p in s.pieces && OnBoard(d)
    ensures Undoable(s, p, d)
  {
    var c := CapturedBy(s, p, d);
    if c.Some? {
      var sq := if IsEnPassant(s, p, d) then Square(s.info[p].pos.row, d.col) else d;
      assert At(s, sq) == c;
    }
  }

  lemma IsEnPassantSame(s: State, t: State, p: PieceId, d: Square)
    requires WF(s) && WF(t) && SameView(s, t) && p in s.info
    ensures IsEnPassant(t, p, d) == IsEnPassant(s, p, d)
  {
    var occ := At(s, s.info[p].pos);
    if occ.Some? && s.info[occ.value].kind == Pawn {
      EnPassantSame(s, t, occ.value, d);
    }
  }

  /** Reordering the roster keeps a position coherent. */
  lemma CoherentSame(s: State, t: State)
    requires Coherent(s) && SameButOrder(s, t)
    ensures Coherent(t)
  {
    SameButOrderWF(s, t);
    NoDupMultiset(s.pieces, t.pieces);
    forall p, d | p in t.info && OnBoard(d) && IsEnPassant(t, p, d)
      ensures d !in t.board
    {
      IsEnPassantSame(s, t, p, d);
    }
  }

  // ---------------------------------------------------------------------
  // The order of the roster does not matter to the King's castling tests
  // ---------------------------------------------------------------------

  /** move() takes no King off the roster and adds nobody to it. */
  lemma MoveKeepsKings(s: State, p: PieceId, d: Square)
    requires WF(s) && p in s.info && OnBoard(d) && At(s, s.info[p].pos) == Some(p)
    ensures var t := Move(s, p, d).state;
            (forall q :: q in t.pieces ==> q in s.pieces)
            && (forall q :: q in s.pieces && s.info[q].kind == King ==> q in t.pieces)
  {
    MoveParts(s, p, d);
    if IsEnPassant(s, p, d) {
      EnPassantShape(s, p, d);
    }
  }

  /** A roster that loses no King and gains nobody has the same King of
      each colour. */
  lemma KingOfSubset(s: State, t: State, c: Color)
    requires WF(s) && WF(t) && KingsUnique(s)
    requires forall q :: q in t.pieces ==> q in s.pieces
    requires forall q :: q in s.pieces && s.info[q].kind == King ==> q in t.pieces
    requires forall q :: q in s.info && q in t.info ==> t.info[q].kind == s.info[q].kind && t.info[q].color == s.info[q].color
    ensures KingsUnique(t) && KingOf(t, c) == KingOf(s, c)
  {
    match KingOf(s, c)
    case None =>
    case Some(k) =>
      assert k in t.pieces;
  }

  /** Hence the King of each colour is the same before and after a move. */
  lemma MoveKeepsKingOf(s: State, p: PieceId, d: Square, c: Color)
    requires WF(s) && KingsUnique(s) && p in s.info && OnBoard(d) && At(s, s.info[p].pos) == Some(p)
    ensures (MoveKeepsWF(s, p, d); KingsUnique(Move(s, p, d).state) && KingOf(Move(s, p, d).state, c) == KingOf(s, c))
  {
    MoveKeepsWF(s, p, d);
    MoveKeepsKings(s, p, d);
    KingOfSubset(s, Move(s, p, d).state, c);
  }

  /** An occupied square other than the mover's stays occupied after a
      move unless it holds the pawn an en passant capture takes. */
  lemma MoveKeepsSquare(s: State, p: PieceId, d: Square, sq: Square)
    requires WF(s) && p in s.info && OnBoard(d) && At(s, s.info[p].pos) == Some(p)
    requires sq in s.board && s.board[sq] != p && s.info[s.board[sq]].kind != Pawn
    ensures sq in Move(s, p, d).state.board
  {
    MoveParts(s, p, d);
    if IsEnPassant(s, p, d) {
      EnPassantShape(s, p, d);
    }
  }

  /** The square recorded for each King stays occupied after a move of a
      roster piece: a King that moves stands on its destination, any other
      King stays where it was, with the mover on top of it if it landed
      there. */
  lemma MoveKingHome(s: State, p: PieceId, d: Square, c: Color)
    requires Coherent(s) && p in s.pieces && OnBoard(d)
    ensures (MoveKeepsWF(s, p, d); KingsUnique(Move(s, p, d).state) && KingHome(Move(s, p, d).state, c))
  {
    MoveKeepsWF(s, p, d);
    MoveKeepsKingOf(s, p, d, c);
    if KingOf(s, c).Some? {
      var k := KingOf(s, c).value;
      if k == p {
        MoveParts(s, p, d);
      } else {
        MoveKeepsSquare(s, p, d, s.info[k].pos);
      }
    }
  }

  /** After the same move in two coherent positions that differ in the
      order of the roster, inCheck gives the same answer for either side. */
  lemma MoveCheckSame(s: State, t: State, p: PieceId, d: Square, c: Color)
    requires Coherent(s) && SameButOrder(s, t) && p in s.pieces && OnBoard(d)
    ensures WF(t) && (MoveKeepsWF(s, p, d); MoveKeepsWF(t, p, d);
                      InCheck(Move(t, p, d).state, c) == InCheck(Move(s, p, d).state, c))
  {
    SameButOrderWF(s, t);
    MoveKeepsWF(s, p, d);
    MoveKeepsWF(t, p, d);
    MoveKingHome(s, p, d, c);
    MoveSameButOrder(s, t, p, d);
    InCheckSame(Move(s, p, d).state, Move(t, p, d).state, c);
  }

  /** The trial move of a roster piece gives the same check test in two
      coherent positions that differ in the order of the roster. */
  lemma TrialSafeSame(s: State, t: State, p: PieceId, sq: Square)
    requires Coherent(s) && SameButOrder(s, t) && p in s.pieces && OccupantUnmoved(s, p) && OnBoard(sq)
    ensures WF(t) && OccupantUnmoved(t, p) && TrialSafe(t, p, sq) == TrialSafe(s, p, sq)
  {
    MoveCheckSame(s, t, p, sq, s.turn);
  }

  lemma NoInterferenceSame(s: State, t: State, p: PieceId, a: Square, b: Square)
    requires Coherent(s) && SameButOrder(s, t) && p in s.pieces && OccupantUnmoved(s, p)
    requires OnBoard(a) && OnBoard(b) && a.row == b.row && a.col <= b.col
    ensures WF(t) && OccupantUnmoved(t, p) && NoInterference(t, p, a, b) == NoInterference(s, p, a, b)
  {
    SameButOrderWF(s, t);
    forall col | a.col <= col <= b.col
      ensures TrialSafe(t, p, Square(a.row, col)) == TrialSafe(s, p, Square(a.row, col))
    {
      TrialSafeSame(s, t, p, Square(a.row, col));
    }
  }

  /** isValidCapture of a roster piece does not depend on the order of the
      roster. */
  lemma CaptureSame(s: State, t: State, p: PieceId, d: Square)
    requires Coherent(s) && SameButOrder(s, t) && p in s.pieces && OnBoard(d)
    ensures WF(t) && IsValidCapture(t, p, d) == IsValidCapture(s, p, d)
  {
    SameButOrderWF(s, t);
    ThreatensSame(s, t, p, d);
    if s.info[p].kind == King {
      var cur := s.info[p].pos;
      if OccupantUnmoved(s, p) {
        if cur.col + 1 <= 7 {
          NoInterferenceSame(s, t, p, cur, Square(cur.row, 6));
        }
        if cur.col >= 2 {
          NoInterferenceSame(s, t, p, Square(cur.row, 2), cur);
        }
      }
      assert CastlingShort(t, p, d) == CastlingShort(s, p, d);
      assert CastlingLong(t, p, d) == CastlingLong(s, p, d);
      assert KingCaptures(t, p, d) == KingCaptures(s, p, d);
    }
  }

  // ---------------------------------------------------------------------
  // isValidMove and givesCheck
  // ---------------------------------------------------------------------

  /** The answer of a trial move and the state it leaves behind. */
  datatype Trial = Trial(answer: bool, after: State)

  /** Roster order is an equivalence: chaining two reorderings. */
  lemma SameButOrderTrans(s: State, t: State, u: State)
    requires SameButOrder(s, t) && SameButOrder(t, u)
    ensures SameButOrder(s, u)
  {
  }

  /** move(d), then moveBack to where p stood, as isValidMove and givesCheck
      do it; the answer is inCheck(c) in between. */
  function TrialCheck(s: State, p: PieceId, d: Square, c: Color): (r: Trial)
    requires Coherent(s) && p in s.pieces && OnBoard(d)
    ensures SameButOrder(s, r.after)
    ensures (MoveKeepsWF(s, p, d); r.answer == InCheck(Move(s, p, d).state, c))
  {
    CoherentUndoable(s, p, d);
    MoveKeepsWF(s, p, d);
    MoveBackUndoesMove(s, p, d);
    var m := Move(s, p, d);
    Trial(InCheck(m.state, c), MoveBack(m.state, p, s.info[p].pos, m.captured, m.enPassant))
  }

  /** A legal move: after it the side to move is not in check, and the
      piece may capture on (or move to) d. */
  predicate Legal(s: State, p: PieceId, d: Square)
    requires WF(s) && p in s.info && OnBoard(d)
  {
    MoveKeepsWF(s, p, d);
    !InCheck(Move(s, p, d).state, s.turn) && IsValidCapture(s, p, d)
  }

  /** isValidMove of every subclass: `super.isValidMove(d) &&
      isValidCapture(d)`, where the trial tests the side to move (not the
      piece's own colour) and isValidCapture runs on the restored
      position. */
  function IsValidMove(s: State, p: PieceId, d: Square): (r: Trial)
    requires Coherent(s) && p in s.pieces && OnBoard(d)
    ensures SameButOrder(s, r.after)
  {
    var trial := TrialCheck(s, p, d, s.turn);
    SameButOrderWF(s, trial.after);
    Trial(!trial.answer && IsValidCapture(trial.after, p, d), trial.after)
  }

  /** isValidMove answers exactly Legal, and leaves a coherent position
      that differs from the first in the order of the roster only. */
  lemma IsValidMoveLegal(s: State, p: PieceId, d: Square)
    requires Coherent(s) && p in s.pieces && OnBoard(d)
    ensures var r := IsValidMove(s, p, d);
            r.answer == Legal(s, p, d) && Coherent(r.after) && SameButOrder(s, r.after)
  {
    var r := IsValidMove(s, p, d);
    CoherentSame(s, r.after);
    CaptureSame(s, r.after, p, d);
  }

  /** Piece.givesCheck: the trial tests the other side. */
  function GivesCheck(s: State, p: PieceId, d: Square): (r: Trial)
    requires Coherent(s) && p in s.pieces && OnBoard(d)
    ensures SameButOrder(s, r.after)
    ensures (MoveKeepsWF(s, p, d); r.answer == InCheck(Move(s, p, d).state, Opp(s.turn)))
  {
    TrialCheck(s, p, d, Opp(s.turn))
  }

  /** Legal does not depend on the order of the roster. */
  lemma LegalSame(s: State, t: State, p: PieceId, d: Square)
    requires Coherent(s) && SameButOrder(s, t) && p in s.pieces && OnBoard(d)
    ensures WF(t) && Legal(t, p, d) == Legal(s, p, d)
  {
    MoveCheckSame(s, t, p, d, s.turn);
    CaptureSame(s, t, p, d);
  }

  // ---------------------------------------------------------------------
  // Piece.getLegalMoves
  // ---------------------------------------------------------------------

  /** A list of moves and the state left behind by the trials that chose
      them. */
  datatype Targets = Targets(moves: seq<(Square, Square)>, after: State)

  /** The pairs (from, d), in candidate order, for the candidates d that
      are legal for p in s. */
  function LegalTargets(s: State, p: PieceId, from: Square, cands: seq<Square>): (r: seq<(Square, Square)>)
    requires WF(s) && p in s.info && forall d :: d in cands ==> OnBoard(d)
    ensures forall m :: m in r <==> m.0 == from && m.1 in cands && Legal(s, p, m.1)
  {
    if cands == [] then []
    else (if Legal(s, p, cands[0]) then [(from, cands[0])] else []) + LegalTargets(s, p, from, cands[1..])
  }

  /** getPossibleMoves().stream().filter(isValidMove).map(x -> (curPos, x)):
      each filter step is a trial on the position the previous trial left. */
  function FilterValid(s: State, p: PieceId, from: Square, cands: seq<Square>): (r: Targets)
    requires Coherent(s) && p in s.pieces && forall d :: d in cands ==> OnBoard(d)
    ensures Coherent(r.after) && SameButOrder(s, r.after)
    decreases |cands|
  {
    if cands == [] then Targets([], s)
    else
      var v := IsValidMove(s, p, cands[0]);
      CoherentSame(s, v.after);
      assert p in multiset(s.pieces);
      var rest := FilterValid(v.after, p, from, cands[1..]);
      SameButOrderTrans(s, v.after, rest.after);
      Targets((if v.answer then [(from, cands[0])] else []) + rest.moves, rest.after)
  }

  /** The legal targets do not depend on the order of the roster. */
  lemma {:induction false} LegalTargetsSame(s: State, t: State, p: PieceId, from: Square, cands: seq<Square>)
    requires Coherent(s) && SameButOrder(s, t) && p in s.pieces && forall d :: d in cands ==> OnBoard(d)
    ensures WF(t) && LegalTargets(t, p, from, cands) == LegalTargets(s, p, from, cands)
  {
    SameButOrderWF(s, t);
    if cands != [] {
      LegalSame(s, t, p, cands[0]);
      LegalTargetsSame(s, t, p, from, cands[1..]);
    }
  }

  /** The trials choose exactly the legal targets, in candidate order. */
  lemma {:induction false} FilterValidLegal(s: State, p: PieceId, from: Square, cands: seq<Square>)
    requires Coherent(s) && p in s.pieces && forall d :: d in cands ==> OnBoard(d)
    ensures FilterValid(s, p, from, cands).moves == LegalTargets(s, p, from, cands)
    decreases |cands|
  {
    if cands != [] {
      var v := IsValidMove(s, p, cands[0]);
      IsValidMoveLegal(s, p, cands[0]);
      SameButOrderWF(s, v.after);
      FilterValidLegal(v.after, p, from, cands[1..]);
      LegalTargetsSame(s, v.after, p, from, cands[1..]);
    }
  }

  /** Piece.getLegalMoves for p, on the position s. */
  function PieceLegalMoves(s: State, p: PieceId): (r: Targets)
    requires Coherent(s) && p in s.pieces
    ensures Coherent(r.after) && SameButOrder(s, r.after)
  {
    FilterValid(s, p, s.info[p].pos, PossibleMoves(s, p))
  }

  /** The moves of p that Piece.getLegalMoves lists: the pairs (curPos, d)
      for the legal candidates d, in generation order. */
  function LegalMovesOf(s: State, p: PieceId): (r: seq<(Square, Square)>)
    requires WF(s) && p in s.pieces
    ensures forall m :: m in r <==> m.0 == s.info[p].pos && m.1 in PossibleMoves(s, p) && Legal(s, p, m.1)
  {
    LegalTargets(s, p, s.info[p].pos, PossibleMoves(s, p))
  }

  /** Piece.getLegalMoves returns LegalMovesOf. */
  lemma PieceLegalMovesSpec(s: State, p: PieceId)
    requires Coherent(s) && p in s.pieces
    ensures PieceLegalMoves(s, p).moves == LegalMovesOf(s, p)
  {
    FilterValidLegal(s, p, s.info[p].pos, PossibleMoves(s, p));
  }

  /** ... on any reordering of the roster as well. */
  lemma LegalMovesOfSame(s: State, t: State, p: PieceId)
    requires Coherent(s) && SameButOrder(s, t) && p in s.pieces
    ensures WF(t) && p in t.pieces && LegalMovesOf(t, p) == LegalMovesOf(s, p)
  {
    SameButOrderWF(s, t);
    assert t.board == s.board && t.info == s.info;
    assert PossibleMoves(t, p) == PossibleMoves(s, p);
    LegalTargetsSame(s, t, p, s.info[p].pos, PossibleMoves(s, p));
  }

  // ---------------------------------------------------------------------
  // Candidates cover every legal move
  // ---------------------------------------------------------------------

  /** Unmoved pawns stand on their starting row and unmoved Kings on the e
      file, as in every position reached from the starting one. */
  predicate UnmovedAtHome(s: State)
    requires WF(s)
  {
    forall q :: q in s.pieces && s.info[q].nMoves == 0 ==>
      (s.info[q].kind == Pawn ==> s.info[q].pos.row == (if s.info[q].color == White then 1 else 6))
      && (s.info[q].kind == King ==> s.info[q].pos.col == 4)
  }

  /** Every square the King may capture on or castle to is among its
      candidates. */
  lemma KingCandidates(s: State, p: PieceId, d: Square)
    requires Coherent(s) && UnmovedAtHome(s) && p in s.pieces && s.info[p].kind == King && OnBoard(d)
    requires KingCaptures(s, p, d)
    ensures d in PossibleMoves(s, p)
  {
    var cur := s.info[p].pos;
    assert PossibleMoves(s, p) == KingMoves(cur);
    KingMovesIff(cur, d);
    if !Adjacent(cur, d) {
      assert CastlingShort(s, p, d) || CastlingLong(s, p, d);
      assert s.board[cur] == p && s.info[p].nMoves == 0;
      assert cur.col == 4 && d.row == cur.row && (d.col == 6 || d.col == 2);
    }
  }

  /** getPossibleMoves lists every square isValidCapture accepts (the
      superset the generators promise), in a position where unmoved pieces
      are at home. */
  lemma CandidatesComplete(s: State, p: PieceId, d: Square)
    requires Coherent(s) && UnmovedAtHome(s) && p in s.pieces && OnBoard(d)
    requires IsValidCapture(s, p, d)
    ensures d in PossibleMoves(s, p)
  {
    match s.info[p].kind
    case Pawn => PawnCandidates(s, p, d);
    case King => KingCandidates(s, p, d);
    case _ => SliderCandidates(s, p, d);
  }

  /** So Piece.getLegalMoves lists exactly the legal moves of p. */
  lemma LegalMovesOfIff(s: State, p: PieceId, d: Square)
    requires Coherent(s) && UnmovedAtHome(s) && p in s.pieces && OnBoard(d)
    ensures (s.info[p].pos, d) in LegalMovesOf(s, p) <==> Legal(s, p, d)
  {
    if Legal(s, p, d) {
      CandidatesComplete(s, p, d);
    }
  }

  // ---------------------------------------------------------------------
  // Game.getLegalMoves, isUnplayable, isCheckMate, isStaleMate, isDraw
  // ---------------------------------------------------------------------

  /** One roster entry's share of Game.getLegalMoves: the legal moves of
      the piece when it has colour c, nothing otherwise. */
  function OwnMoves(s: State, q: PieceId, c: Color): seq<(Square, Square)>
    requires WF(s) && q in s.pieces
  {
    if s.info[q].color == c then LegalMovesOf(s, q) else []
  }

  /** The moves Game.getLegalMoves gathers from the roster entries ps: the
      legal moves of each piece of colour c, in roster order. */
  function SideMoves(s: State, ps: seq<PieceId>, c: Color): seq<(Square, Square)>
    requires WF(s) && forall q :: q in ps ==> q in s.pieces
    decreases |ps|
  {
    if ps == [] then [] else OwnMoves(s, ps[0], c) + SideMoves(s, ps[1..], c)
  }

  /** A move is gathered exactly when it is a legal move of some piece of
      colour c among ps. */
  lemma {:induction false} SideMovesMembers(s: State, ps: seq<PieceId>, c: Color)
    requires WF(s) && forall q :: q in ps ==> q in s.pieces
    ensures forall m :: m in SideMoves(s, ps, c) <==> exists q :: q in ps && s.info[q].color == c && m in LegalMovesOf(s, q)
    decreases |ps|
  {
    if ps != [] {
      SideMovesMembers(s, ps[1..], c);
      var own := OwnMoves(s, ps[0], c);
      var rest := SideMoves(s, ps[1..], c);
      assert SideMoves(s, ps, c) == own + rest;
      assert forall q :: q in ps <==> q == ps[0] || q in ps[1..] by {
        assert ps == [ps[0]] + ps[1..];
      }
    }
  }

  /** The moves of the side to move. */
  function LegalMoves(s: State): (r: seq<(Square, Square)>)
    requires WF(s)
    ensures forall m :: m in r <==> exists q :: q in s.pieces && s.info[q].color == s.turn && m in LegalMovesOf(s, q)
  {
    SideMovesMembers(s, s.pieces, s.turn);
    SideMoves(s, s.pieces, s.turn)
  }

  /** With unmoved pieces at home, Game.getLegalMoves lists exactly the
      legal moves of the side to move. */
  lemma LegalMovesIff(s: State, a: Square, d: Square)
    requires Coherent(s) && UnmovedAtHome(s) && OnBoard(d)
    ensures (a, d) in LegalMoves(s) <==>
            exists q :: q in s.pieces && s.info[q].color == s.turn && s.info[q].pos == a && Legal(s, q, d)
  {
    if (a, d) in LegalMoves(s) {
      var q :| q in s.pieces && s.info[q].color == s.turn && (a, d) in LegalMovesOf(s, q);
      LegalMovesOfIff(s, q, d);
    }
    if exists q :: q in s.pieces && s.info[q].color == s.turn && s.info[q].pos == a && Legal(s, q, d) {
      var q :| q in s.pieces && s.info[q].color == s.turn && s.info[q].pos == a && Legal(s, q, d);
      LegalMovesOfIff(s, q, d);
    }
  }

  /** isUnplayable(c): no piece of colour c has a legal move (legality
      itself is judged for the side to move). */
  predicate NoLegalMove(s: State, c: Color)
    requires WF(s)
  {
    forall q :: q in s.pieces && s.info[q].color == c ==> LegalMovesOf(s, q) == []
  }

  /** isUnplayable(c) holds exactly when the moves gathered for c are none. */
  lemma NoLegalMoveIff(s: State, c: Color)
    requires WF(s)
    ensures NoLegalMove(s, c) <==> SideMoves(s, s.pieces, c) == []
  {
    SideMovesMembers(s, s.pieces, c);
    if !NoLegalMove(s, c) {
      var q :| q in s.pieces && s.info[q].color == c && LegalMovesOf(s, q) != [];
      assert LegalMovesOf(s, q)[0] in SideMoves(s, s.pieces, c);
    }
    var r := SideMoves(s, s.pieces, c);
    if r != [] {
      assert r[0] in r;
      var q :| q in s.pieces && s.info[q].color == c && r[0] in LegalMovesOf(s, q);
      assert LegalMovesOf(s, q) != [];
    }
  }

  /** For the side to move, with unmoved pieces at home, isUnplayable means
      that no piece of that side has any legal move at all. */
  lemma NoLegalMoveMeans(s: State)
    requires Coherent(s) && UnmovedAtHome(s)
    ensures NoLegalMove(s, s.turn) <==>
            forall q, d :: q in s.pieces && s.info[q].color == s.turn && OnBoard(d) ==> !Legal(s, q, d)
  {
    if NoLegalMove(s, s.turn) {
      forall q, d | q in s.pieces && s.info[q].color == s.turn && OnBoard(d)
        ensures !Legal(s, q, d)
      {
        LegalMovesOfIff(s, q, d);
      }
    } else {
      var q :| q in s.pieces && s.info[q].color == s.turn && LegalMovesOf(s, q) != [];
      var m := LegalMovesOf(s, q)[0];
      assert m in LegalMovesOf(s, q);
    }
  }

  /** isCheckMate(c) = inCheck(c) && isUnplayable(c). */
  predicate CheckMate(s: State, c: Color)
    requires WF(s)
  {
    InCheck(s, c) && NoLegalMove(s, c)
  }

  /** isStaleMate(c) = !inCheck(currentTurn) && isUnplayable(c): the check
      test looks at the side to move whatever c is. */
  predicate StaleMate(s: State, c: Color)
    requires WF(s)
  {
    !InCheck(s, s.turn) && NoLegalMove(s, c)
  }

  /** For the side to move, checkmate and stalemate are the two outcomes
      of having no legal move (Article 5 of the FIDE Laws of Chess), and
      they exclude each other. */
  lemma MateOrStaleMate(s: State)
    requires WF(s)
    ensures NoLegalMove(s, s.turn) <==> CheckMate(s, s.turn) || StaleMate(s, s.turn)
    ensures !(CheckMate(s, s.turn) && StaleMate(s, s.turn))
  {
  }
}
