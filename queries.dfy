/** Game.getLegalMoves and Game.isUnplayable as the source runs them: a
    loop over a copy of the roster that asks each piece of one colour for
    its legal moves. Every such request makes trial moves, and a trial
    capture puts the captured piece back at the end of the roster, so each
    piece is asked on the position the previous requests left. The
    functions below thread that position; the lemmas show the answers are
    those of Legality's definitions on the first position. */
module Queries {
  import opened Util
  import opened Squares
  import opened Pieces
  import opened Attacks
  import opened Legality

  /** Every entry of `order` is on the roster of s. */
  predicate OnRoster(s: State, order: seq<PieceId>)
  {
    forall q :: q in order ==> q in s.pieces
  }

  /** Reordering the roster keeps the entries on it. */
  lemma OnRosterSame(s: State, t: State, order: seq<PieceId>)
    requires WF(s) && SameButOrder(s, t) && OnRoster(s, order)
    ensures WF(t) && OnRoster(t, order)
  {
    SameButOrderWF(s, t);
  }

  /** The loop of getLegalMoves over order[i..] (the copy of the roster),
      for the pieces of colour c, on the position cur left by the requests
      before index i: the moves gathered and the position left. */
  function GatherFrom(cur: State, order: seq<PieceId>, c: Color, i: nat): (r: Targets)
    requires Coherent(cur) && i <= |order| && OnRoster(cur, order)
    ensures SameButOrder(cur, r.after)
    decreases |order| - i
  {
    if i == |order| then Targets([], cur)
    else if cur.info[order[i]].color != c then GatherFrom(cur, order, c, i + 1)
    else
      var own := PieceLegalMoves(cur, order[i]);
      OnRosterSame(cur, own.after, order);
      var rest := GatherFrom(own.after, order, c, i + 1);
      SameButOrderTrans(cur, own.after, rest.after);
      Targets(own.moves + rest.moves, rest.after)
  }

  /** Game.getLegalMoves(): the moves of the side to move. */
  function GameLegalMoves(s: State): (r: Targets)
    requires Coherent(s)
    ensures Coherent(r.after) && SameButOrder(s, r.after)
  {
    var r := GatherFrom(s, s.pieces, s.turn, 0);
    CoherentSame(s, r.after);
    r
  }

  /** SideMoves does not depend on the order of the roster. */
  lemma {:induction false} SideMovesSame(s: State, t: State, ps: seq<PieceId>, c: Color)
    requires Coherent(s) && SameButOrder(s, t) && OnRoster(s, ps)
    ensures WF(t) && OnRoster(t, ps) && SideMoves(t, ps, c) == SideMoves(s, ps, c)
    decreases |ps|
  {
    OnRosterSame(s, t, ps);
    if ps != [] {
      LegalMovesOfSame(s, t, ps[0]);
      SideMovesSame(s, t, ps[1..], c);
    }
  }

  /** One iteration of the gathering loop on a piece of colour c: its
      legal moves come first, then those the rest of the loop gathers on
      the position its trials left, which are the same as on cur. */
  lemma GatherOwnStep(cur: State, order: seq<PieceId>, c: Color, i: nat)
    requires Coherent(cur) && i < |order| && OnRoster(cur, order) && cur.info[order[i]].color == c
    requires var own := PieceLegalMoves(cur, order[i]);
             OnRoster(own.after, order)
             && GatherFrom(own.after, order, c, i + 1).moves == SideMoves(own.after, order[i + 1..], c)
    ensures GatherFrom(cur, order, c, i).moves == SideMoves(cur, order[i..], c)
  {
    var own := PieceLegalMoves(cur, order[i]);
    assert order[i..][1..] == order[i + 1..];
    PieceLegalMovesSpec(cur, order[i]);
    SideMovesSame(cur, own.after, order[i + 1..], c);
  }

  /** ... and on a piece of another colour, nothing. */
  lemma GatherOtherStep(cur: State, order: seq<PieceId>, c: Color, i: nat)
    requires Coherent(cur) && i < |order| && OnRoster(cur, order) && cur.info[order[i]].color != c
    ensures GatherFrom(cur, order, c, i) == GatherFrom(cur, order, c, i + 1)
  {
  }

  /** A piece of another colour adds nothing to SideMoves. */
  lemma SideMovesSkip(s: State, order: seq<PieceId>, c: Color, i: nat)
    requires WF(s) && i < |order| && OnRoster(s, order) && s.info[order[i]].color != c
    ensures OnRoster(s, order[i..]) && SideMoves(s, order[i..], c) == SideMoves(s, order[i + 1..], c)
  {
    assert order[i..][0] == order[i] && order[i..][1..] == order[i + 1..];
  }

  /** The gathering loop lists, in order, the legal moves of the pieces of
      colour c in order[i..]. */
  lemma {:induction false} GatherFromMoves(cur: State, order: seq<PieceId>, c: Color, i: nat)
    requires Coherent(cur) && i <= |order| && OnRoster(cur, order)
    ensures GatherFrom(cur, order, c, i).moves == SideMoves(cur, order[i..], c)
    decreases |order| - i
  {
    if i < |order| {
      if cur.info[order[i]].color == c {
        var own := PieceLegalMoves(cur, order[i]);
        OnRosterSame(cur, own.after, order);
        GatherFromMoves(own.after, order, c, i + 1);
        GatherOwnStep(cur, order, c, i);
      } else {
        GatherFromMoves(cur, order, c, i + 1);
        GatherOtherStep(cur, order, c, i);
        SideMovesSkip(cur, order, c, i);
      }
    }
  }

  /** getLegalMoves lists exactly LegalMoves, and leaves the position
      unchanged but for the order of the roster. */
  lemma GameLegalMovesSpec(s: State)
    requires Coherent(s)
    ensures GameLegalMoves(s).moves == LegalMoves(s)
  {
    GatherFromMoves(s, s.pieces, s.turn, 0);
    assert s.pieces[0..] == s.pieces;
  }

  /** The loop of isUnplayable(c) over order[i..]: false at the first piece
      of colour c with a legal move, true when there is none. */
  function UnplayableFrom(cur: State, order: seq<PieceId>, c: Color, i: nat): (r: Trial)
    requires Coherent(cur) && i <= |order| && OnRoster(cur, order)
    ensures SameButOrder(cur, r.after)
    decreases |order| - i
  {
    if i == |order| then Trial(true, cur)
    else if cur.info[order[i]].color != c then UnplayableFrom(cur, order, c, i + 1)
    else
      var own := PieceLegalMoves(cur, order[i]);
      if own.moves != [] then Trial(false, own.after)
      else
        OnRosterSame(cur, own.after, order);
        var rest := UnplayableFrom(own.after, order, c, i + 1);
        SameButOrderTrans(cur, own.after, rest.after);
        rest
  }

  /** No piece of colour c among order[j..] has a legal move in s. */
  predicate NoneMovable(s: State, order: seq<PieceId>, c: Color, i: nat)
    requires WF(s) && OnRoster(s, order) && i <= |order|
  {
    forall j :: i <= j < |order| && s.info[order[j]].color == c ==> LegalMovesOf(s, order[j]) == []
  }

  /** NoneMovable from i is the test at i and NoneMovable from i + 1. */
  lemma NoneMovableStep(s: State, order: seq<PieceId>, c: Color, i: nat)
    requires WF(s) && OnRoster(s, order) && i < |order|
    ensures NoneMovable(s, order, c, i) <==>
            (s.info[order[i]].color == c ==> LegalMovesOf(s, order[i]) == []) && NoneMovable(s, order, c, i + 1)
  {
  }

  /** The loop answers NoneMovable on the first position. */
  lemma {:induction false} UnplayableFromAnswer(s: State, cur: State, order: seq<PieceId>, c: Color, i: nat)
    requires Coherent(s) && SameButOrder(s, cur) && Coherent(cur) && i <= |order| && OnRoster(s, order)
    ensures OnRoster(cur, order) && UnplayableFrom(cur, order, c, i).answer == NoneMovable(s, order, c, i)
    decreases |order| - i
  {
    OnRosterSame(s, cur, order);
    if i < |order| {
      var p := order[i];
      NoneMovableStep(s, order, c, i);
      if cur.info[p].color == c {
        var own := PieceLegalMoves(cur, p);
        PieceLegalMovesSpec(cur, p);
        LegalMovesOfSame(s, cur, p);
        if own.moves == [] {
          SameButOrderTrans(s, cur, own.after);
          UnplayableFromAnswer(s, own.after, order, c, i + 1);
        }
      } else {
        UnplayableFromAnswer(s, cur, order, c, i + 1);
      }
    }
  }

  /** Game.isUnplayable(c), with the position it leaves. */
  function GameUnplayable(s: State, c: Color): (r: Trial)
    requires Coherent(s)
    ensures Coherent(r.after) && SameButOrder(s, r.after)
  {
    var r := UnplayableFrom(s, s.pieces, c, 0);
    CoherentSame(s, r.after);
    r
  }

  /** isUnplayable(c) answers NoLegalMove(c). */
  lemma GameUnplayableSpec(s: State, c: Color)
    requires Coherent(s)
    ensures GameUnplayable(s, c).answer == NoLegalMove(s, c)
  {
    UnplayableFromAnswer(s, s, s.pieces, c, 0);
    if NoneMovable(s, s.pieces, c, 0) {
      forall q | q in s.pieces && s.info[q].color == c
        ensures LegalMovesOf(s, q) == []
      {
        var j :| 0 <= j < |s.pieces| && s.pieces[j] == q;
      }
    }
  }

  /** Game.isCheckMate(c) = inCheck(c) && isUnplayable(c), with the
      position it leaves (isUnplayable runs only when c is in check). */
  function GameCheckMate(s: State, c: Color): (r: Trial)
    requires Coherent(s)
    ensures Coherent(r.after) && SameButOrder(s, r.after)
  {
    if InCheck(s, c) then GameUnplayable(s, c) else Trial(false, s)
  }

  /** Game.isStaleMate(c) = !inCheck(currentTurn) && isUnplayable(c). */
  function GameStaleMate(s: State, c: Color): (r: Trial)
    requires Coherent(s)
    ensures Coherent(r.after) && SameButOrder(s, r.after)
  {
    if !InCheck(s, s.turn) then GameUnplayable(s, c) else Trial(false, s)
  }

  /** isCheckMate answers CheckMate ... */
  lemma CheckMateSpec(s: State, c: Color)
    requires Coherent(s)
    ensures GameCheckMate(s, c).answer == CheckMate(s, c)
  {
    GameUnplayableSpec(s, c);
  }

  /** ... and isStaleMate answers StaleMate. */
  lemma StaleMateSpec(s: State, c: Color)
    requires Coherent(s)
    ensures GameStaleMate(s, c).answer == StaleMate(s, c)
  {
    GameUnplayableSpec(s, c);
  }
}
