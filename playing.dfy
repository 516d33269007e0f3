/** The search never leaves what the model vouches for: from a position
    that keeps the turn invariant, every move getLegalMoves lists can be
    made and taken back, every position it leads to keeps the invariant,
    so constructGameTree always returns a value. */
module Playing {
  import opened Util
  import opened Squares
  import opened Pieces
  import opened Attacks
  import opened Legality
  import opened Turns
  import opened Evaluation
  import opened AlphaBeta
  import opened Queries
  import opened Search
  import opened Invariant

  /** The move m can be played in s: its first square holds a piece of the
      side to move, and moving it to the second square is legal. */
  predicate Playable(s: State, m: (Square, Square))
  {
    TurnInvariant(s) && m.0 in s.board && OnBoard(m.1) && LegalTurn(s, s.board[m.0], m.1)
  }

  /** Every move getLegalMoves lists can be played. */
  lemma LegalMovesPlayable(s: State, m: (Square, Square))
    requires TurnInvariant(s) && m in LegalMoves(s)
    ensures Playable(s, m)
  {
    var q :| q in s.pieces && s.info[q].color == s.turn && m in LegalMovesOf(s, q);
    assert At(s, s.info[q].pos) == Some(q);
  }

  /** Reordering the roster keeps a move playable. */
  lemma PlayableSame(s: State, t: State, m: (Square, Square))
    requires Playable(s, m) && SameButOrder(s, t)
    ensures Playable(t, m)
  {
    var p := s.board[m.0];
    TurnInvariantSame(s, t);
    assert p in multiset(s.pieces);
    LegalSame(s, t, p, m.1);
  }
  /** constructGameTree returns a value from every position that keeps the
      invariant, at every depth and with every window. */
  lemma SearchPosSome(s: State, depth: nat, alpha: Score, beta: Score)
    requires TurnInvariant(s)
    ensures SearchPos(s, depth, alpha, beta).Some?
    decreases depth, 1
  {
    if depth > 0 {
      var lm := GameLegalMoves(s);
      var cur := lm.after;
      if lm.moves != [] && !IsDraw(cur) {
        var r := Branch(cur, depth, lm.moves, alpha, beta);
        assert SearchPos(s, depth, alpha, beta).Some? == r.Some?;
        NodeSome(s, depth, alpha, beta);
      }
    }
  }

  /** The inner node of SearchPosSome: its moves are the legal moves of s,
      playable in the position getLegalMoves hands back. */
  lemma NodeSome(s: State, depth: nat, alpha: Score, beta: Score)
    requires TurnInvariant(s) && depth >= 1 && GameLegalMoves(s).moves != []
    ensures Branch(GameLegalMoves(s).after, depth, GameLegalMoves(s).moves, alpha, beta).Some?
    decreases depth, 0, |GameLegalMoves(s).moves| + 2
  {
    var lm := GameLegalMoves(s);
    Gathered(s);
    TurnInvariantSame(s, lm.after);
    AllPlayable(s, lm.after);
    BranchSome(lm.after, depth, lm.moves, alpha, beta);
  }

  /** Every legal move of s can be played in a reordering of s. */
  lemma AllPlayable(s: State, cur: State)
    requires TurnInvariant(s) && SameButOrder(s, cur)
    ensures forall m :: m in LegalMoves(s) ==> Playable(cur, m)
  {
    forall m | m in LegalMoves(s)
      ensures Playable(cur, m)
    {
      LegalMovesPlayable(s, m);
      PlayableSame(s, cur, m);
    }
  }

  /** The same for an inner node with playable moves ms. */
  lemma BranchSome(cur: State, depth: nat, ms: seq<(Square, Square)>, alpha: Score, beta: Score)
    requires TurnInvariant(cur) && depth >= 1 && ms != []
    requires forall m :: m in ms ==> Playable(cur, m)
    ensures Branch(cur, depth, ms, alpha, beta).Some?
    decreases depth, 0, |ms| + 1
  {
    var moves := CapturesFirst(cur, ms);
    CapturesFirstSorts(cur, ms);
    forall m | m in moves
      ensures Playable(cur, m)
    {
      assert m in multiset(moves);
    }
    assert |moves| == |multiset(moves)| == |ms|;
    LoopSome(cur, depth, moves, alpha, beta, [], Loop(alpha, beta, None));
  }

  /** The same for the loop over the moves, from any child on. */
  lemma LoopSome(cur: State, depth: nat, moves: seq<(Square, Square)>, a: Score, b: Score,
                 kids: seq<Score>, l: Loop)
    requires TurnInvariant(cur) && depth >= 1 && moves != [] && |kids| <= |moves|
    requires Tracks(cur.turn == White, a, b, kids, l)
    requires forall m :: m in moves ==> Playable(cur, m)
    ensures MovesLoop(cur, depth, moves, a, b, kids, l).Some?
    decreases depth, 0, |moves| - |kids|, 3
  {
    var white := cur.turn == White;
    if |kids| < |moves| {
      PlaySome(cur, depth, moves[|kids|], l.alpha, l.beta);
      var (v, after) := Play(cur, depth, moves[|kids|], l.alpha, l.beta).value;
      var l' := Step(white, l, |kids|, v);
      StepTracks(white, a, b, kids, l, v);
      if !Cut(l') {
        TurnInvariantSame(cur, after);
        forall m | m in moves
          ensures Playable(after, m)
        {
          PlayableSame(cur, after, m);
        }
        LoopSome(after, depth, moves, a, b, kids + [v], l');
      }
    }
  }

  /** The same for one child: the move is ready to be taken back, the
      position it leads to keeps the invariant, and its search returns. */
  lemma PlaySome(cur: State, depth: nat, m: (Square, Square), alpha: Score, beta: Score)
    requires TurnInvariant(cur) && depth >= 1 && Playable(cur, m)
    ensures Play(cur, depth, m, alpha, beta).Some?
    decreases depth, 0, 0, 2
  {
    TurnSafe(cur, cur.board[m.0], m.1);
    PlayFromChild(cur, depth, m, alpha, beta);
  }

  /** A playable move can be taken back and leads to a position that keeps
      the invariant. */
  lemma TurnSafe(s: State, p: PieceId, d: Square)
    requires LegalTurn(s, p, d)
    ensures TurnReady(s, p, d) && TurnInvariant(NextTurnAutoQueen(s, p, d).state)
  {
    LegalTurnReady(s, p, d);
    TurnKeepsInvariant(s, p, d);
  }

  /** A child whose move is ready and whose position keeps the invariant
      is played. */
  lemma PlayFromChild(cur: State, depth: nat, m: (Square, Square), alpha: Score, beta: Score)
    requires Coherent(cur) && depth >= 1 && m.0 in cur.board && OnBoard(m.1)
    requires cur.board[m.0] in cur.info && TurnReady(cur, cur.board[m.0], m.1)
    requires TurnInvariant(NextTurnAutoQueen(cur, cur.board[m.0], m.1).state)
    ensures Play(cur, depth, m, alpha, beta).Some?
    decreases depth, 0, 0, 1
  {
    var t := NextTurnAutoQueen(cur, cur.board[m.0], m.1);
    ChildSome(t.state, depth, alpha, beta);
  }

  /** The search one level down returns. */
  lemma ChildSome(s: State, depth: nat, alpha: Score, beta: Score)
    requires TurnInvariant(s) && depth >= 1
    ensures SearchPos(s, Below(depth), alpha, beta).Some?
    decreases depth, 0, 0, 0
  {
    SearchPosSome(s, Below(depth), alpha, beta);
  }
}
