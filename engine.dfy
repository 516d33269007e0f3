/** The Game object itself: its fields as mutable state and its methods as
    the source runs them, step by step, each proved to leave exactly the
    state (and return exactly the answer) that the functional model of the
    other modules gives for the state it started from. */
module Engine {
  import opened Util
  import opened Squares
  import opened Pieces
  import opened Rules
  import opened Moves
  import opened Attacks
  import opened Legality
  import opened Generators
  import opened Turns
  import opened Evaluation
  import opened AlphaBeta
  import opened Queries
  import opened Restoring
  import opened Search
  import opened Setup
  import opened Invariant
  import opened Playing

  /** One step of getPossibleMoves().filter(isValidMove): the first
      candidate's trial, then the rest on the position it left. */
  lemma FilterValidStep(cur: State, p: PieceId, from: Square, cands: seq<Square>, i: nat)
    requires Coherent(cur) && p in cur.pieces && i < |cands| && forall d :: d in cands ==> OnBoard(d)
    ensures var v := Legality.IsValidMove(cur, p, cands[i]);
            Coherent(v.after) && p in v.after.pieces
            && FilterValid(cur, p, from, cands[i..]).moves
               == (if v.answer then [(from, cands[i])] else []) + FilterValid(v.after, p, from, cands[i + 1..]).moves
            && FilterValid(cur, p, from, cands[i..]).after == FilterValid(v.after, p, from, cands[i + 1..]).after
  {
    assert cands[i..][0] == cands[i] && cands[i..][1..] == cands[i + 1..];
    var v := Legality.IsValidMove(cur, p, cands[i]);
    CoherentSame(cur, v.after);
    assert p in multiset(cur.pieces);
  }

  /** The invariant of Piece.getLegalMoves' filter loop carried over one
      candidate: the moves kept so far, extended by the trial's answer,
      followed by what the rest of the filter keeps, are still the target. */
  lemma FilterValidAdvance(cur: State, p: PieceId, from: Square, cands: seq<Square>, i: nat,
                           moves: seq<(Square, Square)>, target: Targets)
    requires Coherent(cur) && p in cur.pieces && i < |cands| && forall d :: d in cands ==> OnBoard(d)
    requires moves + FilterValid(cur, p, from, cands[i..]).moves == target.moves
    requires FilterValid(cur, p, from, cands[i..]).after == target.after
    ensures var v := Legality.IsValidMove(cur, p, cands[i]);
            Coherent(v.after) && p in v.after.pieces
            && (moves + if v.answer then [(from, cands[i])] else []) + FilterValid(v.after, p, from, cands[i + 1..]).moves
               == target.moves
            && FilterValid(v.after, p, from, cands[i + 1..]).after == target.after
  {
    FilterValidStep(cur, p, from, cands, i);
    var v := Legality.IsValidMove(cur, p, cands[i]);
    var h := if v.answer then [(from, cands[i])] else [];
    AppendAssoc(moves, h, FilterValid(v.after, p, from, cands[i + 1..]).moves);
  }

  /** prevTurn without a promotion: the mover moves back, then the last
      step undoes the double step or the Rook's half of castling. */
  lemma PrevTurnPlainSteps(t: State, oldPos: Square, newPos: Square, data: TurnData)
    requires PrevTurnDefined(t, oldPos, newPos, data) && !data.promotion
    ensures var s2 := UnwindMover(t, oldPos, newPos, data);
            WF(s2) && t.board[newPos] in s2.info
            && PrevTurn(t, oldPos, newPos, data)
               == if data.twoUp then SetMovedTwo(s2, t.board[newPos], 0)
                  else if data.shortCastle || data.longCastle then
                    MoveBack(s2, s2.board[Square(oldPos.row, JumpCol(data.shortCastle))],
                             Square(oldPos.row, CornerCol(data.shortCastle)), None, false)
                  else s2
  {
    RewindWF(t);
    MoveBackKeepsWF(Rewind(t), t.board[newPos], oldPos, data.captured, data.enPassant);
  }

  /** prevTurn undoing a promotion: the promoted piece is replaced by the
      last pawn parked on newPos and forgotten if nothing refers to it,
      then the pawn moves back. */
  lemma PrevTurnPromotionSteps(t: State, oldPos: Square, newPos: Square, data: TurnData)
    requires PrevTurnDefined(t, oldPos, newPos, data) && data.promotion
    ensures var s1 := Rewind(t);
            var pawn := LastParkedOn(s1, s1.promoted, newPos).value;
            var s3 := Unpromoted(s1, s1.board[newPos], pawn, newPos);
            WF(s3) && pawn in s3.info
            && var s4 := Forget(s3, s1.board[newPos], data);
               pawn in s4.info && s4.info[pawn].nMoves >= 1 && (data.captured.Some? ==> data.captured.value in s4.info)
               && PrevTurn(t, oldPos, newPos, data) == MoveBack(s4, pawn, oldPos, data.captured, data.enPassant)
  {
    RewindWF(t);
    LastParkedOnInfo(t, Rewind(t), t.promoted, newPos);
    PrevTurnUnpromoteSteps(t, oldPos, newPos, data);
  }

  /** The state of constructGameTree's loop over the sorted moves at the
      position cur, on a search that stays within the model: the children
      values kids so far, the loop state l that keeps track of them, and
      the outcome goal the rest of the loop reaches from there. */
  predicate LoopAt(cur: State, depth: nat, moves: seq<(Square, Square)>, a: Score, b: Score,
                   kids: seq<Score>, l: Loop, goal: Option<Outcome>)
  {
    Coherent(cur) && depth >= 1 && moves != [] && |kids| <= |moves|
    && Tracks(cur.turn == White, a, b, kids, l)
    && goal.Some? && MovesLoop(cur, depth, moves, a, b, kids, l) == goal
  }

  /** The loop's outcome read off its state: the best value so far, the
      move of the child that reached it, the children values and the
      position handed back. */
  predicate Ends(r: Option<Outcome>, moves: seq<(Square, Square)>, kids: seq<Score>, l: Loop, after: State)
  {
    l.best.Some? && l.best.value.1 < |moves|
    && r == Some(Outcome(l.best.value.0, Some(moves[l.best.value.1]), kids, after))
  }

  /** The next child of the loop can be played with the loop's window. */
  lemma MovesLoopPlays(cur: State, depth: nat, moves: seq<(Square, Square)>, a: Score, b: Score,
                       kids: seq<Score>, l: Loop, goal: Option<Outcome>)
    requires LoopAt(cur, depth, moves, a, b, kids, l, goal) && |kids| < |moves|
    ensures Coherent(cur) && depth >= 1
    ensures Play(cur, depth, moves[|kids|], l.alpha, l.beta).Some?
  {
  }

  /** One iteration of the loop: once the child returned v and prevTurn
      handed back after, the loop state l' that takes v either closes the
      window, and the loop's outcome is read off it, or the loop goes on
      from after towards the same outcome. */
  lemma MovesLoopStep(cur: State, depth: nat, moves: seq<(Square, Square)>, a: Score, b: Score,
                      kids: seq<Score>, l: Loop, goal: Option<Outcome>, v: Score, after: State, l': Loop)
    requires LoopAt(cur, depth, moves, a, b, kids, l, goal) && |kids| < |moves|
    requires Play(cur, depth, moves[|kids|], l.alpha, l.beta) == Some((v, after))
    requires l' == Step(cur.turn == White, l, |kids|, v)
    ensures after.turn == cur.turn
    ensures Cut(l') ==> Closed(cur.turn == White, a, b, l'.best.value.0)
                        && Ends(goal, moves, kids + [v], l', after)
    ensures !Cut(l') ==> LoopAt(after, depth, moves, a, b, kids + [v], l', goal)
  {
    var white := cur.turn == White;
    StepTracks(white, a, b, kids, l, v);
    if Cut(l') {
      CutCloses(white, a, b, kids + [v], l');
    }
  }

  /** The loop once it stops: either on a cut, where its outcome was read
      off, or once every move has been played. */
  lemma MovesLoopEnd(cur: State, depth: nat, moves: seq<(Square, Square)>, a: Score, b: Score,
                     kids: seq<Score>, l: Loop, goal: Option<Outcome>, cut: bool)
    requires cut ==> Ends(goal, moves, kids, l, cur)
    requires !cut ==> LoopAt(cur, depth, moves, a, b, kids, l, goal) && |kids| == |moves|
    ensures Ends(goal, moves, kids, l, cur)
  {
  }

  /** What a child of the search that stays within the model consists of:
      the piece on the move's first square makes the turn, the child
      search is defined on the position reached, and prevTurn applies to
      the position the child hands back and gives the loop's next one. */
  lemma PlayParts(cur: State, depth: nat, m: (Square, Square), alpha: Score, beta: Score)
    requires Coherent(cur) && depth >= 1 && Play(cur, depth, m, alpha, beta).Some?
    ensures m.0 in cur.board && OnBoard(m.1)
    ensures var p := cur.board[m.0];
            p in cur.info && cur.info[p].pos == m.0 && TurnReady(cur, p, m.1)
            && var t := Turns.NextTurnAutoQueen(cur, p, m.1);
               Coherent(t.state) && SearchPos(t.state, Below(depth), alpha, beta).Some?
               && var child := SearchPos(t.state, Below(depth), alpha, beta).value;
                  PrevTurnDefined(child.after, m.0, m.1, t.data)
                  && Play(cur, depth, m, alpha, beta)
                     == Some((child.value, PrevTurn(child.after, m.0, m.1, t.data)))
  {
    var p := cur.board[m.0];
    var t := Turns.NextTurnAutoQueen(cur, p, m.1);
    var child := SearchPos(t.state, Below(depth), alpha, beta).value;
    TurnRoundTrip(cur, p, m.1);
    PrevTurnSame(t.state, child.after, m.0, m.1, t.data);
  }

  /** The second half of nextTurnAutoQueen, from the position t the move
      of p from oldPos to d left: the flags of the turn record (the first
      of promotion, double step and castling that applies) and the
      position u the effect leaves. */
  predicate EffectApplied(t: State, u: State, p: PieceId, d: Square, oldPos: Square,
                          twoUp: bool, promotion: bool, shortCastle: bool, longCastle: bool)
    requires WF(t) && p in t.info && OnBoard(d) && 0 <= oldPos.row < 8
  {
    promotion == (t.info[p].kind == Pawn && (d.row == 7 || d.row == 0))
    && shortCastle == (!promotion && !twoUp && t.info[p].kind == King && oldPos.col + 2 == d.col
                       && Square(oldPos.row, 7) in t.board)
    && longCastle == (!promotion && !twoUp && !shortCastle && t.info[p].kind == King
                      && oldPos.col - 2 == d.col && Square(oldPos.row, 0) in t.board)
    && u == if promotion then Promote(t, p, d, Queen, 1)
            else if twoUp then SetMovedTwo(t, p, t.totalTurns + 1)
            else if shortCastle || longCastle then CastleRook(t, oldPos.row, shortCastle)
            else t
  }

  /** nextTurnAutoQueen from its two halves: the move itself, leaving t,
      and the effect that follows it, leaving u; the turn then passes. */
  lemma NextTurnFromParts(s: State, p: PieceId, d: Square, oldPos: Square, t: State, u: State,
                          twoUp: bool, promotion: bool, shortCastle: bool, longCastle: bool)
    requires WF(s) && p in s.info && OnBoard(d) && oldPos == s.info[p].pos
    requires t == Move(s, p, d).state && WF(t) && p in t.info
    requires twoUp == (s.info[p].kind == Pawn && TwoUp(s, p, d))
    requires EffectApplied(t, u, p, d, oldPos, twoUp, promotion, shortCastle, longCastle)
    ensures var r := Turns.NextTurnAutoQueen(s, p, d);
            var m := Move(s, p, d);
            r.data == TurnData(m.captured, m.enPassant, twoUp, promotion, shortCastle, longCastle)
            && r.state == u.(turn := Opp(u.turn), totalTurns := u.totalTurns + 1)
  {
    NextTurnShape(s, p, d, Queen, 1);
    var r := Turns.NextTurnAutoQueen(s, p, d);
    var m := Move(s, p, d);
    assert r.data == TurnData(m.captured, m.enPassant, twoUp, promotion, shortCastle, longCastle);
    assert Effect(s, p, d, Queen, 1, r.data) == u;
  }

  /** One step of getLegalMoves' loop on a piece of colour c: its legal
      moves, then the rest of the loop on the position its trials left. */
  lemma GatherStep(cur: State, order: seq<PieceId>, c: Color, i: nat)
    requires Coherent(cur) && i < |order| && OnRoster(cur, order) && cur.info[order[i]].color == c
    ensures var own := PieceLegalMoves(cur, order[i]);
            OnRoster(own.after, order) && |own.after.pieces| == |cur.pieces|
            && GatherFrom(cur, order, c, i).moves == own.moves + GatherFrom(own.after, order, c, i + 1).moves
            && GatherFrom(cur, order, c, i).after == GatherFrom(own.after, order, c, i + 1).after
  {
    var own := PieceLegalMoves(cur, order[i]);
    OnRosterSame(cur, own.after, order);
    assert |multiset(own.after.pieces)| == |multiset(cur.pieces)|;
  }

  /** One step of isUnplayable's loop on a piece of colour c without legal
      moves: the rest of the loop on the position its trials left. */
  lemma UnplayableStep(cur: State, order: seq<PieceId>, c: Color, i: nat)
    requires Coherent(cur) && i < |order| && OnRoster(cur, order) && cur.info[order[i]].color == c
    ensures var own := PieceLegalMoves(cur, order[i]);
            OnRoster(own.after, order) && |own.after.pieces| == |cur.pieces|
            && UnplayableFrom(cur, order, c, i)
               == if own.moves != [] then Trial(false, own.after) else UnplayableFrom(own.after, order, c, i + 1)
  {
    var own := PieceLegalMoves(cur, order[i]);
    OnRosterSame(cur, own.after, order);
    assert |multiset(own.after.pieces)| == |multiset(cur.pieces)|;
  }

  /** The update of constructGameTree after the child for move m returned
      v: the first child or a strictly better one becomes the best move,
      then Black lowers beta and White raises alpha to the best value. It
      is the loop step Step on the loop state (a, b, best value), whatever
      index bestIdx the current best came from; bestIdx' is the index of
      the new best. */
  method UpdateBest(turn: Color, a: Score, b: Score, best: Option<(Square, Square)>, bestValue: Option<Score>,
                    m: (Square, Square), v: Score, ghost i: nat, ghost bestIdx: nat)
      returns (a': Score, b': Score, best': Option<(Square, Square)>, bestValue': Score, ghost bestIdx': nat)
    ensures Step(turn == White, Loop(a, b, if bestValue.None? then None else Some((bestValue.value, bestIdx))), i, v)
            == Loop(a', b', Some((bestValue', bestIdx')))
    ensures (bestIdx' == i && best' == Some(m)) || (bestValue.Some? && bestIdx' == bestIdx && best' == best)
  {
    if bestValue.None? {
      best', bestValue', bestIdx' := Some(m), v, i;
    } else if turn == White && Lt(bestValue.value, v) {
      best', bestValue', bestIdx' := Some(m), v, i;
    } else if turn == Black && Lt(v, bestValue.value) {
      best', bestValue', bestIdx' := Some(m), v, i;
    } else {
      best', bestValue', bestIdx' := best, bestValue.value, bestIdx;
    }
    if turn == Black {
      a', b' := a, AlphaBeta.Min(b, bestValue');
    } else {
      a', b' := AlphaBeta.Max(a, bestValue'), b;
    }
  }

  class Game {
    /** The occupants of the 64 Position objects of `board`. */
    var board: Occupancy
    /** The fields of every piece object created so far. */
    var info: map<PieceId, PieceRec>
    var pieces: seq<PieceId>
    var removed: seq<PieceId>
    var promotedPawns: seq<PieceId>
    var currentTurn: Color
    var totalTurns: int
    /** The identity the next `new` piece gets. */
    var nextId: PieceId

    /** The whole state of the object as a value. */
    function Snapshot(): State
      reads this
    {
      State(board, info, pieces, removed, promotedPawns, currentTurn, totalTurns, nextId)
    }

    // -------------------------------------------------------------------
    // The constructor
    // -------------------------------------------------------------------

    /** Game(): all 64 positions empty; for White and then Black, the back
        rank on row 0 or row 7; the pawns column by column, the White one
        on row 1 and the Black one on row 6; then the roster read off the
        board row by row; White moves first. */
    constructor ()
      ensures Initial(Snapshot())
    {
      board := map[];
      info := map[];
      pieces := [];
      removed := [];
      promotedPawns := [];
      totalTurns := 0;
      nextId := 0;
      new;
      PlaceBackRanks();
      PlacePawns();
      ReadRoster();
      currentTurn := White;
    }

    /** The constructor's loop over the two colours: White's back rank on
        row 0, then Black's on row 7, each from column 0 to column 7. */
    method PlaceBackRanks()
      requires nextId == 0 && board == StartBoard(nextId) && info == StartInfo(nextId)
      modifies this
      ensures nextId == 16 && board == StartBoard(nextId) && info == StartInfo(nextId)
      ensures pieces == old(pieces) && removed == old(removed) && promotedPawns == old(promotedPawns)
      ensures totalTurns == old(totalTurns)
    {
      var color := 0;
      while color < 2
        invariant 0 <= color <= 2 && nextId == 8 * color
        invariant board == StartBoard(nextId) && info == StartInfo(nextId)
        invariant pieces == old(pieces) && removed == old(removed) && promotedPawns == old(promotedPawns)
        invariant totalTurns == old(totalTurns)
      {
        var c := if color == 0 then White else Black;
        var row := color * 7;
        PlaceNew(Rook, c, Square(row, 0));
        PlaceNew(Knight, c, Square(row, 1));
        PlaceNew(Bishop, c, Square(row, 2));
        PlaceNew(Queen, c, Square(row, 3));
        PlaceNew(King, c, Square(row, 4));
        PlaceNew(Bishop, c, Square(row, 5));
        PlaceNew(Knight, c, Square(row, 6));
        PlaceNew(Rook, c, Square(row, 7));
        color := color + 1;
      }
    }

    /** The constructor's loop over the columns: a White pawn on row 1 and
        a Black pawn on row 6 of each. */
    method PlacePawns()
      requires nextId == 16 && board == StartBoard(nextId) && info == StartInfo(nextId)
      modifies this
      ensures nextId == 32 && board == StartBoard(nextId) && info == StartInfo(nextId)
      ensures pieces == old(pieces) && removed == old(removed) && promotedPawns == old(promotedPawns)
      ensures totalTurns == old(totalTurns)
    {
      var i := 0;
      while i < 8
        invariant 0 <= i <= 8 && nextId == 16 + 2 * i
        invariant board == StartBoard(nextId) && info == StartInfo(nextId)
        invariant pieces == old(pieces) && removed == old(removed) && promotedPawns == old(promotedPawns)
        invariant totalTurns == old(totalTurns)
      {
        PlaceNew(Pawn, White, Square(1, i));
        PlaceNew(Pawn, Black, Square(6, i));
        i := i + 1;
      }
    }

    /** The constructor's last loop: every occupied position, row by row and
        within a row column by column, adds its piece to the roster. */
    method ReadRoster()
      requires pieces == []
      modifies this
      ensures pieces == Scan(board, 64)
      ensures board == old(board) && info == old(info) && nextId == old(nextId)
      ensures removed == old(removed) && promotedPawns == old(promotedPawns) && totalTurns == old(totalTurns)
    {
      var i := 0;
      ghost var k := 0;
      while i < 8
        invariant 0 <= i <= 8 && k == 8 * i && pieces == Scan(board, k)
        invariant board == old(board) && info == old(info) && nextId == old(nextId)
        invariant removed == old(removed) && promotedPawns == old(promotedPawns) && totalTurns == old(totalTurns)
      {
        var j := 0;
        while j < 8
          invariant 0 <= j <= 8 && k == 8 * i + j && pieces == Scan(board, k)
          invariant board == old(board) && info == old(info) && nextId == old(nextId)
          invariant removed == old(removed) && promotedPawns == old(promotedPawns) && totalTurns == old(totalTurns)
        {
          CellAt(i, j);
          if Square(i, j) in board {
            pieces := pieces + [board[Square(i, j)]];
          }
          j := j + 1;
          k := k + 1;
        }
        i := i + 1;
      }
    }

    /** `board[r][c].setPiece(new K(board[r][c], color, this))` in the
        constructor: the next piece it creates, of kind K and colour color
        with no move made, stands on sq. */
    method PlaceNew(kind: Kind, color: Color, sq: Square)
      requires nextId < 32 && board == StartBoard(nextId) && info == StartInfo(nextId)
      requires StartRec(nextId) == NewPiece(kind, color, sq)
      modifies this
      ensures nextId == old(nextId) + 1 && board == StartBoard(nextId) && info == StartInfo(nextId)
      ensures pieces == old(pieces) && removed == old(removed) && promotedPawns == old(promotedPawns)
      ensures currentTurn == old(currentTurn) && totalTurns == old(totalTurns)
    {
      board := board[sq := nextId];
      info := info[nextId := NewPiece(kind, color, sq)];
      nextId := nextId + 1;
    }

    // -------------------------------------------------------------------
    // Piece.move and Piece.moveBack
    // -------------------------------------------------------------------

    /** Piece.move(d) for piece p: the captured piece (the passed pawn for
        en passant) and whether it was en passant. */
    method MovePiece(p: PieceId, d: Square) returns (captured: Option<PieceId>, enPassMove: bool)
      requires WF(Snapshot()) && p in info && OnBoard(d)
      modifies this
      ensures var m := Move(old(Snapshot()), p, d);
              Snapshot() == m.state && captured == m.captured && enPassMove == m.enPassant
    {
      ghost var s := Snapshot();
      MoveParts(s, p, d);
      ghost var m := Move(s, p, d);
      var cur := info[p].pos;
      var bd, ps, rm := board, pieces, removed;
      enPassMove := false;
      captured := Occupant(bd, d);
      if IsEnPassant(Snapshot(), p, d) {
        enPassMove := true;
        var e := Square(cur.row, d.col);
        captured := Occupant(bd, e);
        if captured.Some? {
          ps := RemoveFirst(ps, captured.value);
        }
        bd := bd - {e};
      }
      bd := bd - {cur};
      bd := bd[d := p];
      assert captured == m.captured && enPassMove == m.enPassant;
      assert bd == m.state.board;
      if captured.Some? && info[captured.value].kind != King {
        ps := RemoveFirst(ps, captured.value);
        rm := rm + [captured.value];
      }
      assert ps == m.state.pieces && rm == m.state.removed;
      board, pieces, removed := bd, ps, rm;
      info := info[p := info[p].(pos := d, nMoves := info[p].nMoves + 1)];
    }

    /** Piece.moveBack(oldPos, captured, wasEnPassant) for piece p. */
    method MoveBackPiece(p: PieceId, oldPos: Square, captured: Option<PieceId>, wasEnPassant: bool)
      requires WF(Snapshot()) && p in info && OnBoard(oldPos)
      requires captured.Some? ==> captured.value in info
      modifies this
      ensures Snapshot() == MoveBack(old(Snapshot()), p, oldPos, captured, wasEnPassant)
    {
      var newPos := info[p].pos;
      board := board - {newPos};
      board := board[oldPos := p];
      info := info[p := info[p].(pos := oldPos, nMoves := info[p].nMoves - 1)];
      if captured.Some? && info[captured.value].kind != King {
        pieces := pieces + [captured.value];
        removed := RemoveFirst(removed, captured.value);
      }
      if wasEnPassant {
        board := SetOccupant(board, Square(oldPos.row, newPos.col), captured);
      } else if captured.Some? {
        board := board[newPos := captured.value];
      }
    }

    // -------------------------------------------------------------------
    // The accumulating loops over the roster
    // -------------------------------------------------------------------

    /** Game.getKingPosition(c): the square of the first King of colour c
        on the roster, None for null. */
    method GetKingPosition(c: Color) returns (k: Option<Square>)
      requires WF(Snapshot())
      ensures k == KingPosition(Snapshot(), c)
    {
      var i := 0;
      while i < |pieces|
        invariant 0 <= i <= |pieces|
        invariant FirstKing(Snapshot(), pieces, c, i) == KingOf(Snapshot(), c)
      {
        var p := pieces[i];
        if info[p].color == c && info[p].kind == King {
          return Some(info[p].pos);
        }
        i := i + 1;
      }
      return None;
    }

    /** Game.inCheck(c): a roster piece of the other colour can capture on
        the square of c's King. Where the source would dereference a
        missing King, the method answers false. */
    method InCheck(c: Color) returns (b: bool)
      requires WF(Snapshot())
      ensures b == Attacks.InCheck(Snapshot(), c)
    {
      var i := 0;
      while i < |pieces|
        invariant 0 <= i <= |pieces|
        invariant KingPosition(Snapshot(), c).Some? ==>
                  forall j :: 0 <= j < i ==>
                    !(info[pieces[j]].color != c && IsValidCapture(Snapshot(), pieces[j], KingPosition(Snapshot(), c).value))
      {
        var p := pieces[i];
        if info[p].color != c {
          var k := GetKingPosition(c);
          if k.None? {
            return false;
          }
          if IsValidCapture(Snapshot(), p, k.value) {
            return true;
          }
        }
        i := i + 1;
      }
      return false;
    }

    /** Game.isDraw(): the flag is overwritten on every entry. */
    method IsDraw() returns (b: bool)
      requires WF(Snapshot())
      ensures b == Evaluation.IsDraw(Snapshot())
    {
      var insufficient := false;
      var i := 0;
      while i < |pieces|
        invariant 0 <= i <= |pieces|
        invariant DrawFlag(Snapshot(), insufficient, pieces[i..]) == DrawFlag(Snapshot(), false, pieces)
      {
        assert pieces[i..][1..] == pieces[i + 1..];
        var p := pieces[i];
        insufficient := info[p].kind == Knight || info[p].kind == Bishop;
        i := i + 1;
      }
      b := |pieces| == 2 || (|pieces| == 3 && insufficient);
    }

    /** Game.evaluation(): values of White's pieces added, of Black's
        subtracted, in roster order. */
    method Evaluate() returns (material: int)
      requires WF(Snapshot())
      ensures material == Evaluation.Evaluate(Snapshot())
    {
      material := 0;
      var i := 0;
      while i < |pieces|
        invariant 0 <= i <= |pieces|
        invariant material == Material(Snapshot(), pieces[..i])
      {
        var r := info[pieces[i]];
        assert pieces[..i + 1][..i] == pieces[..i];
        if r.color == White {
          material := material + Value(r.kind, r.color, r.pos);
        } else {
          material := material - Value(r.kind, r.color, r.pos);
        }
        i := i + 1;
      }
      assert pieces[..i] == pieces;
    }

    // -------------------------------------------------------------------
    // Trial moves: Piece.isValidMove, Piece.givesCheck, Piece.getLegalMoves
    // -------------------------------------------------------------------

    /** The body both trials share: move p to d, ask inCheck(c), move the
        piece now on d back. */
    method TrialMove(p: PieceId, d: Square, c: Color) returns (n: bool)
      requires Coherent(Snapshot()) && p in pieces && OnBoard(d)
      modifies this
      ensures var r := TrialCheck(old(Snapshot()), p, d, c);
              n == r.answer && Snapshot() == r.after
    {
      ghost var s := Snapshot();
      CoherentUndoable(s, p, d);
      MoveKeepsWF(s, p, d);
      MoveBackUndoesMove(s, p, d);
      var oldPos := info[p].pos;
      var captured, enPassMove := MovePiece(p, d);
      n := InCheck(c);
      var mover := board[d];
      MoveBackPiece(mover, oldPos, captured, enPassMove);
    }

    /** Piece.isValidMove(d) of every subclass: the side to move is not in
        check after the trial, and isValidCapture(d) holds afterwards. */
    method IsValidMove(p: PieceId, d: Square) returns (ok: bool)
      requires Coherent(Snapshot()) && p in pieces && OnBoard(d)
      modifies this
      ensures var r := Legality.IsValidMove(old(Snapshot()), p, d);
              ok == r.answer && Snapshot() == r.after
      ensures ok == Legal(old(Snapshot()), p, d) && Coherent(Snapshot())
    {
      ghost var s := Snapshot();
      IsValidMoveLegal(s, p, d);
      var n := TrialMove(p, d, currentTurn);
      SameButOrderWF(s, Snapshot());
      ok := !n && IsValidCapture(Snapshot(), p, d);
    }

    /** Piece.givesCheck(d): the other side is in check after the trial. */
    method GivesCheck(p: PieceId, d: Square) returns (n: bool)
      requires Coherent(Snapshot()) && p in pieces && OnBoard(d)
      modifies this
      ensures var r := Legality.GivesCheck(old(Snapshot()), p, d);
              n == r.answer && Snapshot() == r.after
    {
      n := TrialMove(p, d, Opp(currentTurn));
    }

    /** Piece.getLegalMoves() for p: the candidates of getPossibleMoves
        that pass isValidMove, paired with p's square, in order. */
    method GetPieceLegalMoves(p: PieceId) returns (moves: seq<(Square, Square)>)
      requires Coherent(Snapshot()) && p in pieces
      modifies this
      ensures var r := PieceLegalMoves(old(Snapshot()), p);
              moves == r.moves && Snapshot() == r.after
      ensures moves == LegalMovesOf(old(Snapshot()), p)
    {
      ghost var s := Snapshot();
      PieceLegalMovesSpec(s, p);
      ghost var target := PieceLegalMoves(s, p);
      var from := info[p].pos;
      var cands := GetPossibleMoves(Snapshot(), p);
      assert cands[0..] == cands;
      assert forall d :: d in cands ==> OnBoard(d);
      assert FilterValid(s, p, from, cands[0..]) == target;
      moves := [];
      assert moves + target.moves == target.moves;
      assert moves + FilterValid(Snapshot(), p, from, cands[0..]).moves == target.moves;
      assert FilterValid(Snapshot(), p, from, cands[0..]).after == target.after;
      var i := 0;
      while i < |cands|
        invariant 0 <= i <= |cands| && forall d :: d in cands ==> OnBoard(d)
        invariant Coherent(Snapshot()) && p in pieces
        invariant moves + FilterValid(Snapshot(), p, from, cands[i..]).moves == target.moves
        invariant FilterValid(Snapshot(), p, from, cands[i..]).after == target.after
      {
        FilterValidAdvance(Snapshot(), p, from, cands, i, moves, target);
        var ok := IsValidMove(p, cands[i]);
        if ok {
          moves := moves + [(from, cands[i])];
        } else {
          assert moves + [] == moves;
        }
        assert moves + FilterValid(Snapshot(), p, from, cands[i + 1..]).moves == target.moves;
        assert FilterValid(Snapshot(), p, from, cands[i + 1..]).after == target.after;
        i := i + 1;
      }
    }

    // -------------------------------------------------------------------
    // Game.getLegalMoves, isUnplayable, isCheckMate, isStaleMate
    // -------------------------------------------------------------------

    /** Game.getLegalMoves(): the loop over a copy of the roster, asking
        each piece of the side to move for its legal moves. */
    method GetLegalMoves() returns (moves: seq<(Square, Square)>)
      requires Coherent(Snapshot())
      modifies this
      ensures var r := GameLegalMoves(old(Snapshot()));
              moves == r.moves && Snapshot() == r.after
      ensures moves == LegalMoves(old(Snapshot()))
    {
      ghost var s := Snapshot();
      GameLegalMovesSpec(s);
      ghost var target := GameLegalMoves(s);
      var piecesCopy := pieces;
      moves := [];
      var i := 0;
      while i < |pieces|
        invariant 0 <= i <= |piecesCopy| && |pieces| == |piecesCopy|
        invariant Coherent(Snapshot()) && OnRoster(Snapshot(), piecesCopy) && currentTurn == s.turn
        invariant moves + GatherFrom(Snapshot(), piecesCopy, s.turn, i).moves == target.moves
        invariant GatherFrom(Snapshot(), piecesCopy, s.turn, i).after == target.after
        decreases |piecesCopy| - i
      {
        var p := piecesCopy[i];
        ghost var cur := Snapshot();
        if info[p].color == currentTurn {
          GatherStep(cur, piecesCopy, s.turn, i);
          ghost var rest := GatherFrom(PieceLegalMoves(cur, p).after, piecesCopy, s.turn, i + 1);
          ghost var moves0 := moves;
          var own := GetPieceLegalMoves(p);
          assert Snapshot() == PieceLegalMoves(cur, p).after;
          moves := moves + own;
          AppendAssoc(moves0, own, rest.moves);
        } else {
          GatherOtherStep(cur, piecesCopy, s.turn, i);
        }
        i := i + 1;
      }
    }

    /** Game.isUnplayable(c): false at the first piece of colour c with a
        legal move. */
    method IsUnplayable(c: Color) returns (b: bool)
      requires Coherent(Snapshot())
      modifies this
      ensures var r := GameUnplayable(old(Snapshot()), c);
              b == r.answer && Snapshot() == r.after
      ensures b == NoLegalMove(old(Snapshot()), c)
    {
      ghost var s := Snapshot();
      GameUnplayableSpec(s, c);
      var piecesCopy := pieces;
      var i := 0;
      while i < |pieces|
        invariant 0 <= i <= |piecesCopy| && |pieces| == |piecesCopy|
        invariant Coherent(Snapshot()) && OnRoster(Snapshot(), piecesCopy)
        invariant UnplayableFrom(Snapshot(), piecesCopy, c, i) == GameUnplayable(s, c)
        decreases |piecesCopy| - i
      {
        var p := piecesCopy[i];
        if info[p].color == c {
          UnplayableStep(Snapshot(), piecesCopy, c, i);
          var own := GetPieceLegalMoves(p);
          if own != [] {
            return false;
          }
        }
        i := i + 1;
      }
      return true;
    }

    /** Game.isCheckMate(c) = inCheck(c) && isUnplayable(c). */
    method IsCheckMate(c: Color) returns (b: bool)
      requires Coherent(Snapshot())
      modifies this
      ensures var r := GameCheckMate(old(Snapshot()), c);
              b == r.answer && Snapshot() == r.after
      ensures b == CheckMate(old(Snapshot()), c)
    {
      CheckMateSpec(Snapshot(), c);
      b := InCheck(c);
      if b {
        b := IsUnplayable(c);
      }
    }

    /** Game.isStaleMate(c) = !inCheck(currentTurn) && isUnplayable(c). */
    method IsStaleMate(c: Color) returns (b: bool)
      requires Coherent(Snapshot())
      modifies this
      ensures var r := GameStaleMate(old(Snapshot()), c);
              b == r.answer && Snapshot() == r.after
      ensures b == StaleMate(old(Snapshot()), c)
    {
      StaleMateSpec(Snapshot(), c);
      var check := InCheck(currentTurn);
      b := !check;
      if b {
        b := IsUnplayable(c);
      }
    }

    // -------------------------------------------------------------------
    // Game.nextTurnAutoQueen and Game.prevTurn
    // -------------------------------------------------------------------

    /** The promotion step of nextTurnAutoQueen, after the pawn p has
        moved to d: the pawn leaves the roster and is parked, its square is
        cleared, and a new Queen of its colour on d joins the roster. */
    method PromotePawn(p: PieceId, d: Square)
      requires WF(Snapshot()) && p in info && OnBoard(d)
      modifies this
      ensures Snapshot() == Promote(old(Snapshot()), p, d, Queen, 1)
    {
      var color := info[p].color;
      pieces := RemoveFirst(pieces, p);
      promotedPawns := promotedPawns + [p];
      board := board - {info[p].pos};
      var q := nextId;
      nextId := nextId + 1;
      info := info[q := NewPiece(Queen, color, d)];
      board := board[d := q];
      pieces := pieces + [q];
    }

    /** The Rook's half of castling: the piece on the corner of `row`
        (column 7 to the right, 0 to the left) moves to column 5 or 3. */
    method MoveCastlingRook(row: int, right: bool)
      requires WF(Snapshot()) && 0 <= row < 8 && Square(row, CornerCol(right)) in board
      modifies this
      ensures Snapshot() == CastleRook(old(Snapshot()), row, right)
    {
      var _, _ := MovePiece(board[Square(row, CornerCol(right))], Square(row, JumpCol(right)));
    }

    /** The second half of nextTurnAutoQueen, once p has moved from oldPos
        to d: the first of promotion, double step and castling that
        applies, with the flags of the turn record. */
    method ApplyTurnEffect(p: PieceId, d: Square, oldPos: Square, twoUp: bool)
        returns (promotion: bool, shortCastle: bool, longCastle: bool)
      requires WF(Snapshot()) && p in info && OnBoard(d) && 0 <= oldPos.row < 8
      modifies this
      ensures EffectApplied(old(Snapshot()), Snapshot(), p, d, oldPos, twoUp, promotion, shortCastle, longCastle)
    {
      promotion, shortCastle, longCastle := false, false, false;
      if info[p].kind == Pawn && (d.row == 7 || d.row == 0) {
        promotion := true;
        PromotePawn(p, d);
      } else if twoUp {
        info := info[p := info[p].(movedTwo := totalTurns + 1)];
      } else if info[p].kind == King && oldPos.col + 2 == d.col && Square(oldPos.row, 7) in board {
        shortCastle := true;
        MoveCastlingRook(oldPos.row, true);
      } else if info[p].kind == King && oldPos.col - 2 == d.col && Square(oldPos.row, 0) in board {
        longCastle := true;
        MoveCastlingRook(oldPos.row, false);
      }
    }

    /** Game.nextTurnAutoQueen(p, d): move p to d, then promote to a Queen,
        mark the double step or move the castling Rook (the first that
        applies), pass the turn and count it; the record of the turn is
        returned. */
    method NextTurnAutoQueen(p: PieceId, d: Square) returns (data: TurnData)
      requires WF(Snapshot()) && p in info && OnBoard(d)
      modifies this
      ensures var r := Turns.NextTurnAutoQueen(old(Snapshot()), p, d);
              Snapshot() == r.state && data == r.data
    {
      ghost var s := Snapshot();
      MoveKeepsWF(s, p, d);
      var oldPos := info[p].pos;
      var twoUp := info[p].kind == Pawn && TwoUp(Snapshot(), p, d);
      var captured, enPassant := MovePiece(p, d);
      ghost var t := Snapshot();
      var promotion, shortCastle, longCastle := ApplyTurnEffect(p, d, oldPos, twoUp);
      data := TurnData(captured, enPassant, twoUp, promotion, shortCastle, longCastle);
      NextTurnFromParts(s, p, d, oldPos, t, Snapshot(), twoUp, promotion, shortCastle, longCastle);
      currentTurn := Opp(currentTurn);
      totalTurns := totalTurns + 1;
    }

    /** prevTurn's search of promotedPawns for the pawn to resurrect: the
        loop keeps the last entry whose square is sq. */
    method FindParked(sq: Square) returns (r: Option<PieceId>)
      requires WF(Snapshot())
      ensures r == LastParkedOn(Snapshot(), promotedPawns, sq)
    {
      r := None;
      var i := 0;
      while i < |promotedPawns|
        invariant 0 <= i <= |promotedPawns|
        invariant r == LastParkedOn(Snapshot(), promotedPawns[..i], sq)
      {
        assert promotedPawns[..i + 1][..i] == promotedPawns[..i];
        if info[promotedPawns[i]].pos == sq {
          r := Some(promotedPawns[i]);
        }
        i := i + 1;
      }
      assert promotedPawns[..i] == promotedPawns;
    }

    /** The promotion branch of prevTurn: the promoted piece on newPos
        leaves the roster and the board, and the last pawn parked on newPos
        takes its place on both and leaves promotedPawns. */
    method Unpromote(newPos: Square, data: TurnData) returns (pawn: PieceId)
      requires WF(Snapshot()) && newPos in board && LastParkedOn(Snapshot(), promotedPawns, newPos).Some?
      modifies this
      ensures var s1 := old(Snapshot());
              pawn == LastParkedOn(s1, s1.promoted, newPos).value
              && WF(Unpromoted(s1, s1.board[newPos], pawn, newPos))
              && Snapshot() == Forget(Unpromoted(s1, s1.board[newPos], pawn, newPos), s1.board[newPos], data)
    {
      ghost var s1 := Snapshot();
      var toMoveBack := board[newPos];
      pieces := RemoveFirst(pieces, toMoveBack);
      board := board - {newPos};
      var found := FindParked(newPos);
      LastParkedOnInfo(s1, Snapshot(), s1.promoted, newPos);
      pawn := found.value;
      promotedPawns := RemoveFirst(promotedPawns, pawn);
      board := board[newPos := pawn];
      pieces := pieces + [pawn];
      assert Snapshot() == Unpromoted(s1, toMoveBack, pawn, newPos);
      if Unreferenced(Snapshot(), toMoveBack, data) && toMoveBack + 1 == nextId {
        info := info - {toMoveBack};
        nextId := toMoveBack;
      }
    }

    /** The last step of prevTurn without a promotion, once the mover is
        back on oldPos: clear its double-step marker, or move the castling
        Rook from column 5 (3) back to its corner, column 7 (0). */
    method UndoSideEffect(mover: PieceId, oldPos: Square, data: TurnData)
      requires WF(Snapshot()) && mover in info && OnBoard(oldPos)
      requires !data.twoUp && (data.shortCastle || data.longCastle) ==>
                 var jump := Square(oldPos.row, JumpCol(data.shortCastle));
                 jump in board && board[jump] in info && info[board[jump]].nMoves >= 1
      modifies this
      ensures var s2 := old(Snapshot());
              Snapshot() == if data.twoUp then SetMovedTwo(s2, mover, 0)
                            else if data.shortCastle || data.longCastle then
                              MoveBack(s2, s2.board[Square(oldPos.row, JumpCol(data.shortCastle))],
                                       Square(oldPos.row, CornerCol(data.shortCastle)), None, false)
                            else s2
    {
      if data.twoUp {
        info := info[mover := info[mover].(movedTwo := 0)];
      } else if data.shortCastle {
        MoveBackPiece(board[Square(oldPos.row, 5)], Square(oldPos.row, 7), None, false);
      } else if data.longCastle {
        MoveBackPiece(board[Square(oldPos.row, 3)], Square(oldPos.row, 0), None, false);
      }
    }

    /** Game.prevTurn(oldPos, newPos, data): the turn passes back and the
        count drops; the piece on newPos moves back to oldPos (for a
        promotion the resurrected pawn does, after it replaces the promoted
        piece), then the double-step marker is cleared or the castling Rook
        returns to its corner. */
    method PrevTurn(oldPos: Square, newPos: Square, data: TurnData)
      requires PrevTurnDefined(Snapshot(), oldPos, newPos, data)
      modifies this
      ensures Snapshot() == Turns.PrevTurn(old(Snapshot()), oldPos, newPos, data)
    {
      ghost var t := Snapshot();
      totalTurns := totalTurns - 1;
      var toMoveBack := board[newPos];
      currentTurn := Opp(currentTurn);
      assert Snapshot() == Rewind(t);
      RewindWF(t);
      if !data.promotion {
        MoveBackKeepsWF(Rewind(t), toMoveBack, oldPos, data.captured, data.enPassant);
        MoveBackPiece(toMoveBack, oldPos, data.captured, data.enPassant);
        assert Snapshot() == UnwindMover(t, oldPos, newPos, data);
      }
      if data.promotion {
        PrevTurnPromotionSteps(t, oldPos, newPos, data);
        var pawn := Unpromote(newPos, data);
        MoveBackPiece(pawn, oldPos, data.captured, data.enPassant);
      } else {
        PrevTurnPlainSteps(t, oldPos, newPos, data);
        UndoSideEffect(toMoveBack, oldPos, data);
      }
    }

    // -------------------------------------------------------------------
    // Game.constructGameTree
    // -------------------------------------------------------------------

    /** constructGameTree(root, depth, alpha, beta) on the position of the
        object, which keeps the turn invariant (as every position reached
        from the starting one by legal turns of nextTurn or
        nextTurnAutoQueen does): the value of the root,
        the move chosen (None at a leaf and at the end of the game) and the
        values of the children searched; the object is left as the search
        leaves it. */
    method ConstructGameTree(depth: nat, alpha: Score, beta: Score)
        returns (value: Score, best: Option<(Square, Square)>, kids: seq<Score>)
      requires TurnInvariant(Snapshot())
      modifies this
      ensures SearchPos(old(Snapshot()), depth, alpha, beta) == Some(Outcome(value, best, kids, Snapshot()))
    {
      SearchPosSome(Snapshot(), depth, alpha, beta);
      value, best, kids := SearchTree(depth, alpha, beta);
    }

    /** The body of constructGameTree, which calls itself for each child:
        at a node whose search the model vouches for, it returns what
        SearchPos gives. */
    method SearchTree(depth: nat, alpha: Score, beta: Score)
        returns (value: Score, best: Option<(Square, Square)>, kids: seq<Score>)
      requires Coherent(Snapshot()) && SearchPos(Snapshot(), depth, alpha, beta).Some?
      modifies this
      ensures SearchPos(old(Snapshot()), depth, alpha, beta) == Some(Outcome(value, best, kids, Snapshot()))
      decreases depth, 3
    {
      var turn := currentTurn;
      if depth == 0 {
        var material := Evaluate();
        return Fin(material), None, [];
      }
      var moves := GetLegalMoves();
      if moves == [] {
        var check := InCheck(turn);
        value := if check then (if turn == White then NegInf else PosInf) else Fin(0);
        return value, None, [];
      } else {
        var draw := IsDraw();
        if draw {
          return Fin(0), None, [];
        }
      }
      moves := CapturesFirst(Snapshot(), moves);
      value, best, kids := SearchMoves(depth, moves, alpha, beta);
    }

    /** The loop of constructGameTree over the sorted moves: play each move,
        search the child with the current window, take the move back, keep
        the first best value and its move, narrow the window, and stop once
        it is closed. */
    method SearchMoves(depth: nat, moves: seq<(Square, Square)>, alpha: Score, beta: Score)
        returns (value: Score, best: Option<(Square, Square)>, kids: seq<Score>)
      requires Coherent(Snapshot()) && depth >= 1 && moves != []
      requires MovesLoop(Snapshot(), depth, moves, alpha, beta, [], Loop(alpha, beta, None)).Some?
      modifies this
      ensures MovesLoop(old(Snapshot()), depth, moves, alpha, beta, [], Loop(alpha, beta, None))
              == Some(Outcome(value, best, kids, Snapshot()))
      decreases depth, 2
    {
      ghost var goal := MovesLoop(Snapshot(), depth, moves, alpha, beta, [], Loop(alpha, beta, None));
      value, best, kids := SearchFrom(depth, moves, alpha, beta, currentTurn, alpha, beta, None, None,
                                      [], Loop(alpha, beta, None), 0, goal);
    }

    /** constructGameTree's loop over the sorted moves from the move with
        index |kids| on: the children values kids so far, the window (a, b)
        and the best move and value so far go into the next iteration, which
        either closes the window (beta <= alpha) or is the last, and then
        the loop's outcome is handed back, or the loop goes on with the next
        move. The loop reaches the outcome goal that MovesLoop gives from
        the position and the loop state it starts in. */
    method SearchFrom(depth: nat, moves: seq<(Square, Square)>, alpha: Score, beta: Score, turn: Color,
                      a: Score, b: Score, best: Option<(Square, Square)>, bestValue: Option<Score>,
                      kids: seq<Score>, ghost l: Loop, ghost bestIdx: nat, ghost goal: Option<Outcome>)
        returns (value: Score, best': Option<(Square, Square)>, kids': seq<Score>)
      requires LoopAt(Snapshot(), depth, moves, alpha, beta, kids, l, goal)
      requires |kids| < |moves| && currentTurn == turn
      requires l == Loop(a, b, if bestValue.None? then None else Some((bestValue.value, bestIdx)))
      requires bestValue.Some? ==> bestIdx < |moves| && best == Some(moves[bestIdx])
      modifies this
      ensures goal == Some(Outcome(value, best', kids', Snapshot()))
      decreases depth, 2, |moves| - |kids|
    {
      var v, a', b', best1, value1, bestIdx1 := SearchChild(depth, moves, |kids|, alpha, beta, turn, a, b, best, bestValue,
                                                     kids, l, bestIdx, goal);
      ghost var l' := Loop(a', b', Some((value1, bestIdx1)));
      if Le(b', a') || |kids| + 1 == |moves| {
        MovesLoopEnd(Snapshot(), depth, moves, alpha, beta, kids + [v], l', goal, Le(b', a'));
        value, best', kids' := value1, best1, kids + [v];
      } else {
        value, best', kids' := SearchFrom(depth, moves, alpha, beta, turn, a', b', best1, Some(value1),
                                          kids + [v], l', bestIdx1, goal);
      }
    }

    /** Iteration i of the loop of constructGameTree, with the window
        (a, b) and the best move and value so far: the child for move i is
        played and its value v taken into the best move and the window. The
        loop state l' that takes v either closes the window, and the loop's
        outcome is read off it, or the loop goes on from the position
        handed back towards the same outcome. */
    method SearchChild(depth: nat, moves: seq<(Square, Square)>, i: nat, alpha: Score, beta: Score, turn: Color,
                       a: Score, b: Score, best: Option<(Square, Square)>, bestValue: Option<Score>,
                       ghost kids: seq<Score>, ghost l: Loop, ghost bestIdx: nat, ghost goal: Option<Outcome>)
        returns (v: Score, a': Score, b': Score, best': Option<(Square, Square)>, bestValue': Score, ghost bestIdx': nat)
      requires LoopAt(Snapshot(), depth, moves, alpha, beta, kids, l, goal)
      requires i == |kids| < |moves| && currentTurn == turn
      requires l == Loop(a, b, if bestValue.None? then None else Some((bestValue.value, bestIdx)))
      requires bestValue.Some? ==> bestIdx < |moves| && best == Some(moves[bestIdx])
      modifies this
      ensures currentTurn == turn
      ensures bestIdx' < |moves| && best' == Some(moves[bestIdx'])
      ensures var l' := Loop(a', b', Some((bestValue', bestIdx')));
              (Cut(l') ==> Ends(goal, moves, kids + [v], l', Snapshot()))
              && (!Cut(l') ==> LoopAt(Snapshot(), depth, moves, alpha, beta, kids + [v], l', goal))
      decreases depth, 1
    {
      ghost var cur := Snapshot();
      MovesLoopPlays(cur, depth, moves, alpha, beta, kids, l, goal);
      v := PlayMove(depth, moves[i], a, b);
      MovesLoopStep(cur, depth, moves, alpha, beta, kids, l, goal, v, Snapshot(), Step(turn == White, l, i, v));
      a', b', best', bestValue', bestIdx' := UpdateBest(turn, a, b, best, bestValue, moves[i], v, i, bestIdx);
    }

    /** One child of constructGameTree: nextTurnAutoQueen for the piece on
        the move's first square, the search of the child with the window
        (alpha, beta), then prevTurn with the record of the turn. */
    method PlayMove(depth: nat, m: (Square, Square), alpha: Score, beta: Score) returns (v: Score)
      requires Coherent(Snapshot()) && depth >= 1 && Play(Snapshot(), depth, m, alpha, beta).Some?
      modifies this
      ensures Play(old(Snapshot()), depth, m, alpha, beta) == Some((v, Snapshot()))
      decreases depth, 0
    {
      var d := Below(depth);
      PlayParts(Snapshot(), depth, m, alpha, beta);
      var (oldPos, newPos) := m;
      var piece := board[oldPos];
      var data := NextTurnAutoQueen(piece, newPos);
      var value, _, _ := SearchTree(d, alpha, beta);
      PrevTurn(oldPos, newPos, data);
      v := value;
    }
  }
}
