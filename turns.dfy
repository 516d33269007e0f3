/** Game.nextTurnAutoQueen, Game.nextTurn and Game.prevTurn: making a move
    with its side effects (promotion, the double step that opens en passant,
    the Rook's half of castling) and taking it back. */
module Turns {
  import opened Util
  import opened Squares
  import opened Pieces
  import opened Rules
  import opened Moves
  import opened Attacks
  import opened Legality

  /** The record nextTurn returns and prevTurn consumes: the captured piece
      and the five flags [enPassant, twoUp, promotion, shortCastle,
      longCastle]. */
  datatype TurnData = TurnData(captured: Option<PieceId>, enPassant: bool, twoUp: bool,
                               promotion: bool, shortCastle: bool, longCastle: bool)

  /** The state after a turn and the record of it. */
  datatype Turned = Turned(state: State, data: TurnData)

  /** A pawn move onto the last row (row 7 or row 0, whatever the pawn's
      colour). */
  predicate Promotes(s: State, p: PieceId, d: Square)
    requires p in s.info
  {
    s.info[p].kind == Pawn && (d.row == 7 || d.row == 0)
  }

  /** The column of the Rook's home square on the side the King moves two
      columns towards (7 to the right, 0 to the left), and the column it
      jumps to (5 or 3). */
  function CornerCol(right: bool): int { if right then 7 else 0 }
  function JumpCol(right: bool): int { if right then 5 else 3 }

  /** The Rook's half of castling fires: a King moved two columns right
      (left) and, after the move, the corner square of its row towards that
      side is occupied. */
  predicate Castles(s: State, t: State, p: PieceId, cur: Square, d: Square, right: bool)
    requires p in s.info
  {
    s.info[p].kind == King
    && (if right then cur.col + 2 == d.col else cur.col - 2 == d.col)
    && Square(cur.row, CornerCol(right)) in t.board
  }

  /** Promotion after the pawn has moved to d: the pawn leaves the roster
      (its first entry), is parked at the end of promotedPawns, its square
      is cleared, and a new piece of the chosen kind and the pawn's colour
      is put on d and appended to the roster. `parks` is the number of
      times the pawn is parked: once in nextTurnAutoQueen, twice in
      nextTurn. */
  function Promote(t: State, p: PieceId, d: Square, k: Kind, parks: nat): (u: State)
    requires WF(t) && p in t.info && OnBoard(d) && 1 <= parks <= 2
    ensures WF(u) && u.nextId == t.nextId + 1
    ensures Occupant(u.board, d) == Some(t.nextId) && u.info[t.nextId] == NewPiece(k, t.info[p].color, d)
    ensures parks == 1 ==> u.pieces == RemoveFirst(t.pieces, p) + [t.nextId] && u.promoted == t.promoted + [p]
    ensures forall id :: id in t.info ==> id in u.info && u.info[id] == t.info[id]
  {
    var q := t.nextId;
    var once := RemoveFirst(t.pieces, p);
    var pieces := if parks == 2 then RemoveFirst(once, p) else once;
    var promoted := if parks == 2 then t.promoted + [p, p] else t.promoted + [p];
    t.(board := (t.board - {t.info[p].pos})[d := q],
       info := t.info[q := NewPiece(k, t.info[p].color, d)],
       pieces := pieces + [q],
       promoted := promoted,
       nextId := q + 1)
  }

  /** `((Pawn) piece).movedTwo = n`. */
  function SetMovedTwo(t: State, p: PieceId, n: int): (u: State)
    requires WF(t) && p in t.info
    ensures WF(u) && p in u.info && u.info[p].movedTwo == n
  {
    t.(info := t.info[p := t.info[p].(movedTwo := n)])
  }

  /** The Rook's half of castling: the piece on the corner of row `row`
      moves to column 5 (right) or 3 (left). */
  function CastleRook(t: State, row: int, right: bool): (u: State)
    requires WF(t) && 0 <= row < 8 && Square(row, CornerCol(right)) in t.board
    ensures WF(u)
  {
    var corner := Square(row, CornerCol(right));
    MoveKeepsWF(t, t.board[corner], Square(row, JumpCol(right)));
    Move(t, t.board[corner], Square(row, JumpCol(right))).state
  }

  /** What nextTurnWith leaves, before the turn passes. */
  function Effect(s: State, p: PieceId, d: Square, k: Kind, parks: nat, data: TurnData): (u: State)
    requires WF(s) && p in s.info && OnBoard(d) && 1 <= parks <= 2
    requires (data.shortCastle || data.longCastle) ==>
             Square(s.info[p].pos.row, CornerCol(data.shortCastle)) in Move(s, p, d).state.board
  {
    MoveKeepsWF(s, p, d);
    var t := Move(s, p, d).state;
    if data.promotion then Promote(t, p, d, k, parks)
    else if data.twoUp then SetMovedTwo(t, p, s.totalTurns + 1)
    else if data.shortCastle || data.longCastle then CastleRook(t, s.info[p].pos.row, data.shortCastle)
    else t
  }

  /** The turn of piece p to d, promoting to kind k and parking the pawn
      `parks` times: move, then the promotion, the double step or the Rook's
      half of castling (the first that applies), then the turn passes and
      totalTurns grows by one. */
  function NextTurnWith(s: State, p: PieceId, d: Square, k: Kind, parks: nat): (r: Turned)
    requires WF(s) && p in s.info && OnBoard(d) && 1 <= parks <= 2
    ensures WF(r.state)
  {
    var cur := s.info[p].pos;
    var two := s.info[p].kind == Pawn && TwoUp(s, p, d);
    MoveKeepsWF(s, p, d);
    var m := Move(s, p, d);
    var promotion := Promotes(s, p, d);
    var short := !promotion && !two && Castles(s, m.state, p, cur, d, true);
    var long := !promotion && !two && !short && Castles(s, m.state, p, cur, d, false);
    var data := TurnData(m.captured, m.enPassant, two, promotion, short, long);
    var u := Effect(s, p, d, k, parks, data);
    Turned(u.(turn := Opp(u.turn), totalTurns := u.totalTurns + 1), data)
  }

  /** Game.nextTurnAutoQueen: a promoted pawn becomes a Queen. */
  function NextTurnAutoQueen(s: State, p: PieceId, d: Square): (r: Turned)
    requires WF(s) && p in s.info && OnBoard(d)
    ensures WF(r.state)
    ensures r.state.turn == Opp(s.turn) && r.state.totalTurns == s.totalTurns + 1
  {
    NextTurnWith(s, p, d, Queen, 1)
  }

  /** Game.nextTurn with the answer of the promotion dialog as a parameter
      (one of Queen, Rook, Bishop, Knight). As written it parks the pawn
      twice. */
  function NextTurn(s: State, p: PieceId, d: Square, choice: Kind): (r: Turned)
    requires WF(s) && p in s.info && OnBoard(d) && choice in {Queen, Rook, Bishop, Knight}
    ensures WF(r.state)
    ensures r.state.turn == Opp(s.turn) && r.state.totalTurns == s.totalTurns + 1
  {
    NextTurnWith(s, p, d, choice, 2)
  }

  // ---------------------------------------------------------------------
  // Game.prevTurn
  // ---------------------------------------------------------------------

  /** The entry of ps prevTurn resurrects: its loop keeps the last entry
      whose square is sq. */
  function LastParkedOn(s: State, ps: seq<PieceId>, sq: Square): (r: Option<PieceId>)
    requires forall id :: id in ps ==> id in s.info
    ensures r.Some? ==> r.value in ps && s.info[r.value].pos == sq
    ensures r.None? ==> forall id :: id in ps ==> s.info[id].pos != sq
    ensures ps != [] && s.info[ps[|ps| - 1]].pos == sq ==> r == Some(ps[|ps| - 1])
  {
    if ps == [] then None
    else if s.info[ps[|ps| - 1]].pos == sq then Some(ps[|ps| - 1])
    else LastParkedOn(s, ps[..|ps| - 1], sq)
  }

  /** prevTurn's search for the parked pawn reads only the pieces' records. */
  lemma {:induction false} LastParkedOnInfo(x: State, y: State, ps: seq<PieceId>, sq: Square)
    requires x.info == y.info && forall id :: id in ps ==> id in x.info
    ensures LastParkedOn(x, ps, sq) == LastParkedOn(y, ps, sq)
    decreases |ps|
  {
    if ps != [] {
      LastParkedOnInfo(x, y, ps[..|ps| - 1], sq);
    }
  }

  /** prevTurn's first step: the turn passes back and totalTurns drops. */
  function Rewind(t: State): (s1: State)
    ensures s1.turn == Opp(t.turn) && s1.totalTurns == t.totalTurns - 1
  {
    t.(totalTurns := t.totalTurns - 1, turn := Opp(t.turn))
  }

  /** Rewinding changes neither the board nor the pieces. */
  lemma RewindWF(t: State)
    ensures WF(Rewind(t)) <==> WF(t)
  {
  }

  /** Without a promotion, prevTurn first moves the piece on newPos back. */
  function UnwindMover(t: State, oldPos: Square, newPos: Square, data: TurnData): State
    requires WF(t) && OnBoard(oldPos) && newPos in t.board
    requires data.captured.Some? ==> data.captured.value in t.info
  {
    MoveBack(Rewind(t), t.board[newPos], oldPos, data.captured, data.enPassant)
  }

  /** What prevTurn needs of its arguments so that no step dereferences
      null and no move counter drops below zero: the square newPos is
      occupied, and for a promotion a parked pawn stands on newPos; for
      castling the Rook's square (column 5 or 3) is occupied once the King
      is back. */
  predicate PrevTurnDefined(t: State, oldPos: Square, newPos: Square, data: TurnData)
  {
    WF(t) && OnBoard(oldPos) && OnBoard(newPos) && newPos in t.board
    && (data.captured.Some? ==> data.captured.value in t.info)
    && (if data.promotion then
          var pawn := LastParkedOn(t, t.promoted, newPos);
          pawn.Some? && t.info[pawn.value].nMoves >= 1
        else
          t.info[t.board[newPos]].nMoves >= 1
          && (!data.twoUp && (data.shortCastle || data.longCastle) ==>
                var s2 := UnwindMover(t, oldPos, newPos, data);
                var jump := Square(oldPos.row, JumpCol(data.shortCastle));
                jump in s2.board && s2.board[jump] in s2.info && s2.info[s2.board[jump]].nMoves >= 1))
  }

  /** Nothing refers to q: no square, none of the three lists, and not the
      record of the turn being taken back. */
  predicate Unreferenced(s: State, q: PieceId, data: TurnData)
  {
    (forall sq :: sq in s.board ==> s.board[sq] != q)
    && q !in s.pieces && q !in s.removed && q !in s.promoted && data.captured != Some(q)
  }

  /** The piece prevTurn takes off the board when it undoes a promotion is
      garbage once nothing refers to it: its record is forgotten and, when
      it was the last piece created, its identity is handed out again. No
      test of the game can tell the two apart. */
  function Forget(s: State, q: PieceId, data: TurnData): (r: State)
    requires WF(s)
    ensures WF(r) && r.board == s.board && r.pieces == s.pieces && r.removed == s.removed
    ensures r.promoted == s.promoted && r.turn == s.turn && r.totalTurns == s.totalTurns
    ensures forall id :: id in s.info && id != q ==> id in r.info && r.info[id] == s.info[id]
    ensures forall id :: id in s.info && id in s.pieces ==> id in r.info && r.info[id] == s.info[id]
    ensures data.captured.Some? && data.captured.value in s.info ==>
              data.captured.value in r.info && r.info[data.captured.value] == s.info[data.captured.value]
  {
    if Unreferenced(s, q, data) && q + 1 == s.nextId then s.(info := s.info - {q}, nextId := q) else s
  }

  /** prevTurn undoing a promotion swaps the promoted piece on newPos for
      the pawn: the piece leaves the roster (its first entry) and the
      board, the pawn goes back on newPos and to the end of the roster, and
      leaves promotedPawns (its first entry). */
  function Unpromoted(s1: State, mover: PieceId, pawn: PieceId, newPos: Square): State
  {
    s1.(pieces := RemoveFirst(s1.pieces, mover) + [pawn],
        board := (s1.board - {newPos})[newPos := pawn],
        promoted := RemoveFirst(s1.promoted, pawn))
  }

  /** Game.prevTurn(oldPos, newPos, data). */
  function PrevTurn(t: State, oldPos: Square, newPos: Square, data: TurnData): (r: State)
    requires PrevTurnDefined(t, oldPos, newPos, data)
    ensures WF(r) && r.turn == Opp(t.turn) && r.totalTurns == t.totalTurns - 1
  {
    var s1 := Rewind(t);
    var mover := t.board[newPos];
    if !data.promotion then
      MoveBackKeepsWF(s1, mover, oldPos, data.captured, data.enPassant);
      var s2 := UnwindMover(t, oldPos, newPos, data);
      if data.twoUp then SetMovedTwo(s2, mover, 0)
      else if data.shortCastle || data.longCastle then
        var jump := Square(oldPos.row, JumpCol(data.shortCastle));
        var corner := Square(oldPos.row, CornerCol(data.shortCastle));
        MoveBackKeepsWF(s2, s2.board[jump], corner, None, false);
        MoveBack(s2, s2.board[jump], corner, None, false)
      else s2
    else
      var pawn := LastParkedOn(t, t.promoted, newPos).value;
      var s4 := Forget(Unpromoted(s1, mover, pawn, newPos), mover, data);
      MoveBackKeepsWF(s4, pawn, oldPos, data.captured, data.enPassant);
      MoveBack(s4, pawn, oldPos, data.captured, data.enPassant)
  }

  /** prevTurn undoing a promotion, step by step: the promoted piece is
      replaced by the last pawn parked on newPos, the promoted piece is
      forgotten if nothing refers to it, and the pawn moves back. */
  lemma PrevTurnUnpromoteSteps(t: State, oldPos: Square, newPos: Square, data: TurnData)
    requires PrevTurnDefined(t, oldPos, newPos, data) && data.promotion
    ensures var s1 := Rewind(t);
            var pawn := LastParkedOn(t, t.promoted, newPos).value;
            var mover := t.board[newPos];
            var s3 := Unpromoted(s1, mover, pawn, newPos);
            WF(s3) && pawn in s3.info && s3.info[pawn].nMoves >= 1
            && var s4 := Forget(s3, mover, data);
               pawn in s4.info && s4.info[pawn] == s3.info[pawn]
               && (data.captured.Some? ==> data.captured.value in s4.info)
               && PrevTurn(t, oldPos, newPos, data) == MoveBack(s4, pawn, oldPos, data.captured, data.enPassant)
  {
    RewindWF(t);
  }

  // ---------------------------------------------------------------------
  // prevTurn undoes nextTurnAutoQueen
  // ---------------------------------------------------------------------

  /** The conditions under which a turn can be taken back: moveBack can
      undo the move itself (Undoable), the piece moves somewhere else, a
      pawn that never moved has never made a double step, the mover is not
      parked, and a King that moves two columns castles from column 4
      along its row over an empty square onto an empty square, with the
      corner piece (if any) recorded on its corner. */
  predicate TurnReady(s: State, p: PieceId, d: Square)
    requires WF(s) && p in s.info && OnBoard(d)
  {
    var r := s.info[p];
    Undoable(s, p, d) && d != r.pos && p in s.pieces && EmptyOrEnemy(s, d, r.color)
    && (r.nMoves == 0 ==> r.movedTwo == 0)
    && p !in s.promoted
    && (r.kind == King && (r.pos.col + 2 == d.col || r.pos.col - 2 == d.col) ==>
          r.pos.col == 4 && d.row == r.pos.row && d !in s.board
          && Square(r.pos.row, JumpCol(d.col == 6)) !in s.board
          && (var corner := Square(r.pos.row, CornerCol(d.col == 6));
              corner in s.board ==> s.info[s.board[corner]].pos == corner))
  }

  /** The plain case: prevTurn's moveBack undoes the move. */
  lemma PlainUndo(s: State, p: PieceId, d: Square, t: State, data: TurnData)
    requires WF(s) && p in s.info && OnBoard(d) && TurnReady(s, p, d)
    requires !data.promotion && !data.twoUp && !data.shortCastle && !data.longCastle
    requires data.captured == Move(s, p, d).captured && data.enPassant == Move(s, p, d).enPassant
    requires (MoveKeepsWF(s, p, d); Rewind(t) == Move(s, p, d).state)
    ensures PrevTurnDefined(t, s.info[p].pos, d, data) && SameButOrder(s, PrevTurn(t, s.info[p].pos, d, data))
  {
    MoveKeepsWF(s, p, d);
    MoveBackUndoesMove(s, p, d);
    assert t.board[d] == p;
  }

  /** The turn record and the state of nextTurnWith, case by case. */
  lemma NextTurnShape(s: State, p: PieceId, d: Square, k: Kind, parks: nat)
    requires WF(s) && p in s.info && OnBoard(d) && 1 <= parks <= 2
    ensures (MoveKeepsWF(s, p, d);
             var m := Move(s, p, d);
             var r := NextTurnWith(s, p, d, k, parks);
             var cur := s.info[p].pos;
             r.data.captured == m.captured && r.data.enPassant == m.enPassant
             && r.data.promotion == Promotes(s, p, d)
             && r.data.twoUp == (s.info[p].kind == Pawn && TwoUp(s, p, d))
             && r.data.shortCastle == (!r.data.promotion && !r.data.twoUp && Castles(s, m.state, p, cur, d, true))
             && r.data.longCastle == (!r.data.promotion && !r.data.twoUp && !r.data.shortCastle
                                      && Castles(s, m.state, p, cur, d, false))
             && Rewind(r.state) == Effect(s, p, d, k, parks, r.data))
  {
    MoveKeepsWF(s, p, d);
  }

  /** moveBack leaves movedTwo alone. */
  lemma MoveBackKeepsMarker(m: State, p: PieceId, oldPos: Square, captured: Option<PieceId>, ep: bool, n: int)
    requires WF(m) && p in m.info && OnBoard(oldPos) && (captured.Some? ==> captured.value in m.info)
    ensures var b := MoveBack(m, p, oldPos, captured, ep);
            WF(SetMovedTwo(m, p, n)) && p in b.info
            && MoveBack(SetMovedTwo(m, p, n), p, oldPos, captured, ep) == b.(info := b.info[p := b.info[p].(movedTwo := n)])
  {
  }

  /** The double step: moveBack undoes the move, and resetting movedTwo to
      0 undoes the marker, since an unmoved pawn's marker is 0. */
  lemma TwoUpUndo(s: State, p: PieceId, d: Square, t: State, data: TurnData)
    requires WF(s) && p in s.info && OnBoard(d) && TurnReady(s, p, d)
    requires s.info[p].kind == Pawn && TwoUp(s, p, d)
    requires data.twoUp && !data.promotion
    requires data.captured == Move(s, p, d).captured && data.enPassant == Move(s, p, d).enPassant
    requires (MoveKeepsWF(s, p, d); Rewind(t) == SetMovedTwo(Move(s, p, d).state, p, s.totalTurns + 1))
    ensures PrevTurnDefined(t, s.info[p].pos, d, data) && SameButOrder(s, PrevTurn(t, s.info[p].pos, d, data))
  {
    var cur := s.info[p].pos;
    TwoUpUnwound(s, p, d, t, data);
    MarkerCleared(s.info, p, s.totalTurns + 1);
    PrevTurnTwoUp(t, cur, d, data);
    FieldsAgree(s, PrevTurn(t, cur, d, data));
  }

  /** ... where the first step of prevTurn leaves s with the pawn's marker
      still set. */
  lemma TwoUpUnwound(s: State, p: PieceId, d: Square, t: State, data: TurnData)
    requires WF(s) && p in s.info && OnBoard(d) && TurnReady(s, p, d)
    requires s.info[p].kind == Pawn && TwoUp(s, p, d)
    requires data.twoUp && !data.promotion
    requires data.captured == Move(s, p, d).captured && data.enPassant == Move(s, p, d).enPassant
    requires (MoveKeepsWF(s, p, d); Rewind(t) == SetMovedTwo(Move(s, p, d).state, p, s.totalTurns + 1))
    ensures PrevTurnDefined(t, s.info[p].pos, d, data) && t.board[d] == p && s.info[p].movedTwo == 0
    ensures var s2 := UnwindMover(t, s.info[p].pos, d, data);
            s2.board == s.board && s2.info == s.info[p := s.info[p].(movedTwo := s.totalTurns + 1)]
            && multiset(s2.pieces) == multiset(s.pieces) && s2.removed == s.removed && s2.promoted == s.promoted
            && s2.turn == s.turn && s2.totalTurns == s.totalTurns && s2.nextId == s.nextId
  {
    MoveKeepsWF(s, p, d);
    MoveBackUndoesMove(s, p, d);
    var m := Move(s, p, d);
    var cur := s.info[p].pos;
    MoveBackKeepsMarker(m.state, p, cur, m.captured, m.enPassant, s.totalTurns + 1);
    var back := MoveBack(m.state, p, cur, m.captured, m.enPassant);
    assert t.board[d] == p;
    var s2 := UnwindMover(t, cur, d, data);
    assert s2 == back.(info := back.info[p := back.info[p].(movedTwo := s.totalTurns + 1)]);
  }

  /** prevTurn after a double step: the pawn moves back and its marker is
      reset to 0. */
  lemma PrevTurnTwoUp(t: State, oldPos: Square, newPos: Square, data: TurnData)
    requires PrevTurnDefined(t, oldPos, newPos, data) && !data.promotion && data.twoUp
    ensures var s2 := UnwindMover(t, oldPos, newPos, data);
            var mover := t.board[newPos];
            mover in s2.info
            && PrevTurn(t, oldPos, newPos, data) == s2.(info := s2.info[mover := s2.info[mover].(movedTwo := 0)])
  {
  }

  /** Two states that agree on every field but the order of the roster. */
  lemma FieldsAgree(s: State, t: State)
    requires t.board == s.board && t.info == s.info && multiset(t.pieces) == multiset(s.pieces)
    requires t.removed == s.removed && t.promoted == s.promoted && t.turn == s.turn
    requires t.totalTurns == s.totalTurns && t.nextId == s.nextId
    ensures SameButOrder(s, t)
  {
  }

  /** Setting p's marker and then clearing it restores a marker of 0. */
  lemma MarkerCleared(info: map<PieceId, PieceRec>, p: PieceId, n: int)
    requires p in info && info[p].movedTwo == 0
    ensures var a := info[p := info[p].(movedTwo := n)];
            a[p := a[p].(movedTwo := 0)] == info
  {
  }

  /** A move never captures the mover itself, so a ready mover stays on
      the roster. */
  lemma MoverStaysListed(s: State, p: PieceId, d: Square)
    requires WF(s) && p in s.info && OnBoard(d) && TurnReady(s, p, d)
    ensures Move(s, p, d).captured != Some(p) && p in Move(s, p, d).state.pieces
  {
    var m := Move(s, p, d);
    var cur := s.info[p].pos;
    if m.enPassant {
      EnPassantShape(s, p, d);
      var e := Square(cur.row, d.col);
      assert e in s.board && s.info[s.board[e]].color != s.info[p].color;
    }
    MoveParts(s, p, d);
  }

  /** Where promote leaves the pieces: the new piece (identity nextId) on
      d, the pawn parked last in promotedPawns with d as its square. */
  lemma PromotedOnto(m: State, p: PieceId, d: Square, k: Kind, t: State)
    requires WF(m) && p in m.info && OnBoard(d) && m.info[p].pos == d
    requires Rewind(t) == Promote(m, p, d, k, 1)
    ensures t.board[d] == m.nextId && LastParkedOn(t, t.promoted, d) == Some(p)
  {
    assert t.info[p] == m.info[p];
    assert t.promoted[|t.promoted| - 1] == p;
  }

  /** The state prevTurn's promotion step hands to moveBack: the moved
      state with the pawn moved to the end of the roster. */
  function Unparked(m: State, p: PieceId): (x: State)
    ensures p in m.pieces ==> SameButOrder(m, x)
  {
    Relisted(m.pieces, p);
    m.(pieces := RemoveFirst(m.pieces, p) + [p])
  }

  /** Moving an entry to the end keeps the multiset. */
  lemma Relisted<T>(ps: seq<T>, p: T)
    ensures p in ps ==> multiset(RemoveFirst(ps, p) + [p]) == multiset(ps)
  {
    RemoveFirstMultiset(ps, p);
  }

  /** prevTurn's promotion step, before its moveBack, undoes promote: the
      new piece leaves the roster and the board and is forgotten, the
      parked pawn is back on the roster (at the end), on d, and off
      promotedPawns. */
  lemma PromotionUnparks(m: State, p: PieceId, d: Square, k: Kind, data: TurnData)
    requires WF(m) && p in m.info && OnBoard(d) && m.info[p].pos == d && Occupant(m.board, d) == Some(p)
    requires p !in m.promoted && (data.captured.Some? ==> data.captured.value in m.info)
    ensures Unpromoted(Promote(m, p, d, k, 1), m.nextId, p, d) == m.(pieces := RemoveFirst(m.pieces, p) + [p], info := m.info[m.nextId := NewPiece(k, m.info[p].color, d)],
                     nextId := m.nextId + 1)
  {
    var q := m.nextId;
    var v := NewPiece(k, m.info[p].color, d);
    var u := Promote(m, p, d, k, 1);
    PromoteFields(m, p, d, k);
    assert q !in m.info;
    assert q !in RemoveFirst(m.pieces, p);
    RemoveFirstAppended(RemoveFirst(m.pieces, p), q);
    RemoveFirstAppended(m.promoted, p);
    Overwritten(m.board, d, p, q);
    var s3 := Unpromoted(u, q, p, d);
    assert s3 == m.(pieces := RemoveFirst(m.pieces, p) + [p], info := m.info[q := v], nextId := q + 1);
  }

  /** promote parking once, field by field. */
  lemma PromoteFields(m: State, p: PieceId, d: Square, k: Kind)
    requires WF(m) && p in m.info && OnBoard(d) && m.info[p].pos == d
    ensures Promote(m, p, d, k, 1)
            == m.(board := (m.board - {d})[d := m.nextId],
                  info := m.info[m.nextId := NewPiece(k, m.info[p].color, d)],
                  pieces := RemoveFirst(m.pieces, p) + [m.nextId],
                  promoted := m.promoted + [p], nextId := m.nextId + 1)
  {
  }

  /** A state that adds to a well-formed m only the record of q (the
      identity m would hand out next), and reorders m's roster, forgets q. */
  lemma ForgetPromoted(m: State, s3: State, q: PieceId, v: PieceRec, data: TurnData)
    requires WF(m) && q == m.nextId && (data.captured.Some? ==> data.captured.value in m.info)
    requires forall id :: id in s3.pieces ==> id in m.info
    requires s3 == m.(pieces := s3.pieces, info := m.info[q := v], nextId := q + 1) && OnBoard(v.pos) && v.nMoves >= 0
    ensures WF(s3) && Forget(s3, q, data) == m.(pieces := s3.pieces)
  {
    assert q !in m.info;
    assert Unreferenced(s3, q, data);
    assert m.info[q := v] - {q} == m.info;
  }

  /** Putting q on p's square and then p back leaves the board as it was. */
  lemma Overwritten(b: Occupancy, d: Square, p: PieceId, q: PieceId)
    requires d in b && b[d] == p
    ensures (((b - {d})[d := q]) - {d})[d := p] == b
  {
  }

  /** prevTurn after promote: the parked pawn is found on d and moved
      back from the unparked state. */
  lemma PrevTurnUnpromotes(m: State, p: PieceId, d: Square, k: Kind, t: State, cur: Square, data: TurnData)
    requires WF(m) && p in m.info && OnBoard(d) && OnBoard(cur) && m.info[p].pos == d
    requires Occupant(m.board, d) == Some(p) && p !in m.promoted && m.info[p].nMoves >= 1
    requires data.promotion && (data.captured.Some? ==> data.captured.value in m.info)
    requires Rewind(t) == Promote(m, p, d, k, 1)
    ensures PrevTurnDefined(t, cur, d, data)
    ensures PrevTurn(t, cur, d, data) == MoveBack(Unparked(m, p), p, cur, data.captured, data.enPassant)
  {
    PromotedOnto(m, p, d, k, t);
    PromotionUnparks(m, p, d, k, data);
    var s3 := Unpromoted(Rewind(t), m.nextId, p, d);
    ForgetPromoted(m, s3, m.nextId, NewPiece(k, m.info[p].color, d), data);
    RewindWF(t);
  }

  /** The promotion: prevTurn takes the new piece off, puts the parked pawn
      back on d and on the roster, and moveBack undoes the pawn's move. */
  lemma PromotionUndo(s: State, p: PieceId, d: Square, k: Kind, t: State, data: TurnData)
    requires WF(s) && p in s.info && OnBoard(d) && TurnReady(s, p, d)
    requires data.promotion
    requires data.captured == Move(s, p, d).captured && data.enPassant == Move(s, p, d).enPassant
    requires (MoveKeepsWF(s, p, d); Rewind(t) == Promote(Move(s, p, d).state, p, d, k, 1))
    ensures PrevTurnDefined(t, s.info[p].pos, d, data) && SameButOrder(s, PrevTurn(t, s.info[p].pos, d, data))
  {
    MoveKeepsWF(s, p, d);
    MoveBackUndoesMove(s, p, d);
    MoverStaysListed(s, p, d);
    var m := Move(s, p, d).state;
    var cur := s.info[p].pos;
    PrevTurnUnpromotes(m, p, d, k, t, cur, data);
    MoveBackSameButOrder(m, Unparked(m, p), p, cur, data.captured, data.enPassant);
    var b := MoveBack(m, p, cur, data.captured, data.enPassant);
    assert SameButOrder(s, b);
    SameButOrderTrans(s, b, MoveBack(Unparked(m, p), p, cur, data.captured, data.enPassant));
  }

  /** On the board: the King's move and the Rook's jump, undone King
      first, leave the board as it was. */
  lemma CastleBoard(b: Occupancy, p: PieceId, rook: PieceId, cur: Square, d: Square, corner: Square, jump: Square)
    requires Occupant(b, cur) == Some(p) && Occupant(b, corner) == Some(rook) && d !in b && jump !in b
    requires cur != d && cur != corner && cur != jump && d != corner && d != jump && corner != jump
    ensures var m := MovedBoard(b, p, cur, d, None);
            var c := MovedBoard(m, rook, corner, jump, None);
            RestoredBoard(RestoredBoard(c, p, cur, d, None, false), rook, corner, jump, None, false) == b
  {
    var m := MovedBoard(b, p, cur, d, None);
    var c := MovedBoard(m, rook, corner, jump, None);
    var r := RestoredBoard(RestoredBoard(c, p, cur, d, None, false), rook, corner, jump, None, false);
    assert forall sq :: sq in r <==> sq in b;
  }

  /** Moving the King and then the corner piece back, after both moved
      quietly along the row, restores the state. */
  lemma TwoMoveBacksRestore(s: State, m: State, c: State, p: PieceId, rook: PieceId,
                            cur: Square, d: Square, corner: Square, jump: Square)
    requires WF(c) && p in s.info && rook in s.info && p != rook && s.info[p].nMoves >= 0
    requires OnBoard(cur) && OnBoard(corner) && s.info[p].pos == cur && s.info[rook].pos == corner
    requires Occupant(s.board, cur) == Some(p) && Occupant(s.board, corner) == Some(rook) && d !in s.board && jump !in s.board
    requires cur != d && cur != corner && cur != jump && d != corner && d != jump && corner != jump
    requires p in m.info && rook in m.info && QuietlyMoved(s, m, p, d) && QuietlyMoved(m, c, rook, jump)
    ensures (MoveBackKeepsWF(c, p, cur, None, false);
             SameButOrder(s, MoveBack(MoveBack(c, p, cur, None, false), rook, corner, None, false)))
  {
    TwoMoveBacksInfo(s, m, c, p, rook, cur, d, corner, jump);
    TwoMoveBacksBoard(s, m, c, p, rook, cur, d, corner, jump);
  }

  /** ... the records of both pieces, */
  lemma TwoMoveBacksInfo(s: State, m: State, c: State, p: PieceId, rook: PieceId,
                            cur: Square, d: Square, corner: Square, jump: Square)
    requires WF(c) && p in s.info && rook in s.info && p != rook && s.info[p].nMoves >= 0
    requires OnBoard(cur) && OnBoard(corner) && s.info[p].pos == cur && s.info[rook].pos == corner
    requires Occupant(s.board, cur) == Some(p) && Occupant(s.board, corner) == Some(rook) && d !in s.board && jump !in s.board
    requires cur != d && cur != corner && cur != jump && d != corner && d != jump && corner != jump
    requires p in m.info && rook in m.info && QuietlyMoved(s, m, p, d) && QuietlyMoved(m, c, rook, jump)
    ensures (MoveBackKeepsWF(c, p, cur, None, false);
             MoveBack(MoveBack(c, p, cur, None, false), rook, corner, None, false).info == s.info)
  {
    MoveBackKeepsWF(c, p, cur, None, false);
    assert m.info == s.info[p := s.info[p].(pos := d, nMoves := s.info[p].nMoves + 1)];
    assert c.info == m.info[rook := m.info[rook].(pos := jump, nMoves := m.info[rook].nMoves + 1)];
    InfoTwiceBack(s.info, m.info, c.info, p, rook, cur, d, corner, jump);
  }

  /** ... and the board. */
  lemma TwoMoveBacksBoard(s: State, m: State, c: State, p: PieceId, rook: PieceId,
                            cur: Square, d: Square, corner: Square, jump: Square)
    requires WF(c) && p in s.info && rook in s.info && p != rook && s.info[p].nMoves >= 0
    requires OnBoard(cur) && OnBoard(corner) && s.info[p].pos == cur && s.info[rook].pos == corner
    requires Occupant(s.board, cur) == Some(p) && Occupant(s.board, corner) == Some(rook) && d !in s.board && jump !in s.board
    requires cur != d && cur != corner && cur != jump && d != corner && d != jump && corner != jump
    requires p in m.info && rook in m.info && QuietlyMoved(s, m, p, d) && QuietlyMoved(m, c, rook, jump)
    ensures (MoveBackKeepsWF(c, p, cur, None, false);
             MoveBack(MoveBack(c, p, cur, None, false), rook, corner, None, false).board == s.board)
  {
    MoveBackKeepsWF(c, p, cur, None, false);
    var s2 := MoveBack(c, p, cur, None, false);
    assert m.info[rook].pos == corner && c.info[p].pos == d && s2.info[rook].pos == jump;
    CastleBoard(s.board, p, rook, cur, d, corner, jump);
  }

  /** The records after two moves and the two moveBacks: as before. */
  lemma InfoTwiceBack(a: map<PieceId, PieceRec>, mi: map<PieceId, PieceRec>, ci: map<PieceId, PieceRec>,
                      p: PieceId, rook: PieceId, cur: Square, d: Square, corner: Square, jump: Square)
    requires p in a && rook in a && p != rook && a[p].pos == cur && a[rook].pos == corner
    requires mi == a[p := a[p].(pos := d, nMoves := a[p].nMoves + 1)]
    requires ci == mi[rook := mi[rook].(pos := jump, nMoves := mi[rook].nMoves + 1)]
    ensures var si := ci[p := ci[p].(pos := cur, nMoves := ci[p].nMoves - 1)];
            si[rook := si[rook].(pos := corner, nMoves := si[rook].nMoves - 1)] == a
  {
  }

  /** m is s after a quiet move of p to d: only the board and p's record
      change. */
  predicate QuietlyMoved(s: State, m: State, p: PieceId, d: Square)
    requires p in s.info
  {
    m.board == MovedBoard(s.board, p, s.info[p].pos, d, None)
    && m.info == s.info[p := s.info[p].(pos := d, nMoves := s.info[p].nMoves + 1)]
    && m.pieces == s.pieces && m.removed == s.removed && m.promoted == s.promoted
    && m.turn == s.turn && m.totalTurns == s.totalTurns && m.nextId == s.nextId
  }

  /** A move that captures nothing changes only the board and the mover's
      record. */
  lemma QuietMove(s: State, p: PieceId, d: Square)
    requires WF(s) && p in s.info && OnBoard(d)
    requires Move(s, p, d).captured == None && !Move(s, p, d).enPassant
    ensures QuietlyMoved(s, Move(s, p, d).state, p, d)
  {
    MoveParts(s, p, d);
  }

  /** The corner piece's jump is an ordinary move along the row: it
      captures nothing and is never en passant. */
  lemma RookJumpPlain(m: State, rook: PieceId, jump: Square)
    requires WF(m) && rook in m.info && OnBoard(jump) && jump.row == m.info[rook].pos.row && jump !in m.board
    requires At(m, m.info[rook].pos) == Some(rook)
    ensures Move(m, rook, jump).captured == None && !Move(m, rook, jump).enPassant
  {
    if IsEnPassant(m, rook, jump) {
      EnPassantShape(m, m.board[m.info[rook].pos], jump);
    }
  }

  /** prevTurn after the King's move cur -> d and the corner piece's jump
      corner -> jump, both quiet moves, gives back the state before them. */
  lemma CastleUnwinds(s: State, m: State, p: PieceId, rook: PieceId, cur: Square, d: Square, corner: Square, jump: Square,
                      t: State, data: TurnData)
    requires WF(s) && WF(t) && p in s.info && rook in s.info && p != rook
    requires OnBoard(cur) && OnBoard(d) && OnBoard(corner) && OnBoard(jump) && cur.row == corner.row == jump.row
    requires s.info[p].pos == cur && s.info[rook].pos == corner
    requires Occupant(s.board, cur) == Some(p) && Occupant(s.board, corner) == Some(rook) && d !in s.board && jump !in s.board
    requires cur != d && cur != corner && cur != jump && d != corner && d != jump && corner != jump
    requires !data.promotion && !data.twoUp && data.captured == None && !data.enPassant
    requires data.shortCastle || data.longCastle
    requires jump.col == JumpCol(data.shortCastle) && corner.col == CornerCol(data.shortCastle)
    requires p in m.info && rook in m.info && QuietlyMoved(s, m, p, d) && QuietlyMoved(m, Rewind(t), rook, jump)
    ensures PrevTurnDefined(t, cur, d, data) && SameButOrder(s, PrevTurn(t, cur, d, data))
  {
    var c := Rewind(t);
    RewindWF(t);
    assert t.board[d] == p;
    var s2 := MoveBack(c, p, cur, None, false);
    assert s2.board[jump] == rook && s2.info[rook].nMoves >= 1;
    assert PrevTurnDefined(t, cur, d, data);
    MoveBackKeepsWF(c, p, cur, None, false);
    var f := MoveBack(s2, rook, corner, None, false);
    assert PrevTurn(t, cur, d, data) == f;
    TwoMoveBacksRestore(s, m, c, p, rook, cur, d, corner, jump);
  }

  /** Castling: prevTurn moves the King back, then the corner piece from
      column 5 (3) back to its corner. */
  lemma CastleUndo(s: State, p: PieceId, d: Square, t: State, data: TurnData)
    requires WF(s) && p in s.info && OnBoard(d) && TurnReady(s, p, d)
    requires s.info[p].kind == King && !data.promotion && !data.twoUp
    requires data.shortCastle == (s.info[p].pos.col + 2 == d.col)
    requires data.longCastle == !data.shortCastle && (data.longCastle ==> s.info[p].pos.col - 2 == d.col)
    requires data.captured == Move(s, p, d).captured && data.enPassant == Move(s, p, d).enPassant
    requires (MoveKeepsWF(s, p, d);
              Square(s.info[p].pos.row, CornerCol(data.shortCastle)) in Move(s, p, d).state.board
              && Rewind(t) == CastleRook(Move(s, p, d).state, s.info[p].pos.row, data.shortCastle))
    ensures PrevTurnDefined(t, s.info[p].pos, d, data) && SameButOrder(s, PrevTurn(t, s.info[p].pos, d, data))
  {
    MoveKeepsWF(s, p, d);
    var m := Move(s, p, d).state;
    var cur := s.info[p].pos;
    var right := data.shortCastle;
    var corner := Square(cur.row, CornerCol(right));
    var jump := Square(cur.row, JumpCol(right));
    assert !Move(s, p, d).enPassant && Move(s, p, d).captured == None;
    QuietMove(s, p, d);
    var rook := s.board[corner];
    assert m.board[corner] == rook && rook != p;
    RookJumpPlain(m, rook, jump);
    QuietMove(m, rook, jump);
    MoveKeepsWF(m, rook, jump);
    assert Rewind(t) == Move(m, rook, jump).state;
    RewindWF(t);
    assert (d.col == 6) == right;
    assert m.info[rook] == s.info[rook];
    assert s.info[rook].pos == corner;
    CastleUnwinds(s, m, p, rook, cur, d, corner, jump, t, data);
  }

  /** Without a promotion, a double step only marks the pawn (the castling
      flags are not looked at). */
  lemma EffectOfTwoUp(s: State, p: PieceId, d: Square, k: Kind, data: TurnData)
    requires WF(s) && p in s.info && OnBoard(d) && !data.promotion && data.twoUp
    requires (data.shortCastle || data.longCastle) ==>
             Square(s.info[p].pos.row, CornerCol(data.shortCastle)) in Move(s, p, d).state.board
    ensures WF(Move(s, p, d).state)
    ensures Effect(s, p, d, k, 1, data) == SetMovedTwo(Move(s, p, d).state, p, s.totalTurns + 1)
  {
    MoveKeepsWF(s, p, d);
  }

  /** prevTurn undoes nextTurnAutoQueen: for a ready move, taking the turn
      back with the record nextTurnAutoQueen returned gives back the
      board, every piece's fields, the lists `removed` and `promotedPawns`,
      the roster up to order, the side to move and the turn count. */
  lemma TurnRoundTrip(s: State, p: PieceId, d: Square)
    requires WF(s) && p in s.info && OnBoard(d) && TurnReady(s, p, d)
    ensures var r := NextTurnAutoQueen(s, p, d);
            PrevTurnDefined(r.state, s.info[p].pos, d, r.data)
            && SameButOrder(s, PrevTurn(r.state, s.info[p].pos, d, r.data))
  {
    var r := NextTurnWith(s, p, d, Queen, 1);
    NextTurnShape(s, p, d, Queen, 1);
    TurnCaseUndo(s, p, d, Queen, r.state, r.data);
  }

  /** The case analysis behind TurnRoundTrip, for any turn record shaped
      as nextTurnWith (parking once) builds it. */
  lemma TurnCaseUndo(s: State, p: PieceId, d: Square, k: Kind, t: State, data: TurnData)
    requires WF(s) && p in s.info && OnBoard(d) && TurnReady(s, p, d)
    requires (MoveKeepsWF(s, p, d);
              var m := Move(s, p, d);
              var cur := s.info[p].pos;
              data.captured == m.captured && data.enPassant == m.enPassant
              && data.promotion == Promotes(s, p, d)
              && data.twoUp == (s.info[p].kind == Pawn && TwoUp(s, p, d))
              && data.shortCastle == (!data.promotion && !data.twoUp && Castles(s, m.state, p, cur, d, true))
              && data.longCastle == (!data.promotion && !data.twoUp && !data.shortCastle
                                     && Castles(s, m.state, p, cur, d, false))
              && Rewind(t) == Effect(s, p, d, k, 1, data))
    ensures PrevTurnDefined(t, s.info[p].pos, d, data) && SameButOrder(s, PrevTurn(t, s.info[p].pos, d, data))
  {
    MoveKeepsWF(s, p, d);
    if data.promotion {
      PromotionUndo(s, p, d, k, t, data);
    } else if data.twoUp {
      EffectOfTwoUp(s, p, d, k, data);
      TwoUpUndo(s, p, d, t, data);
    } else if data.shortCastle || data.longCastle {
      CastleUndo(s, p, d, t, data);
    } else {
      PlainUndo(s, p, d, t, data);
    }
  }
}
