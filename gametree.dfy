/** The game tree of a position, as constructGameTree explores it: a leaf
    at depth 0 valued by evaluation(), a leaf where the side to move has no
    legal move or the position is a draw, and otherwise a node with one
    subtree per legal move, in the order captures first. Its minimax value
    does not depend on the order of the roster, so the positions the search
    reaches after prevTurn have the same one; with the full window the
    search returns it. */
module GameTrees {
  import opened Util
  import opened Squares
  import opened Pieces
  import opened Moves
  import opened Attacks
  import opened Legality
  import opened Turns
  import opened Evaluation
  import opened AlphaBeta
  import opened Queries
  import opened Search
  import opened Restoring
  import opened Invariant
  import opened Playing

  // ---------------------------------------------------------------------
  // The tree
  // ---------------------------------------------------------------------

  /** The position nextTurnAutoQueen leads to when m is played in cur. */
  function Child(cur: State, m: (Square, Square)): (t: State)
    requires Playable(cur, m)
    ensures TurnInvariant(t)
  {
    TurnSafe(cur, cur.board[m.0], m.1);
    NextTurnAutoQueen(cur, cur.board[m.0], m.1).state
  }

  /** The tree of position s searched to the given depth: evaluation() at
      depth 0; with no legal move, minus infinity when White is mated, plus
      infinity when Black is, zero on stalemate; zero on a draw; otherwise
      the side to move chooses among the trees of the positions the legal
      moves lead to, captures first. */
  function GameTree(s: State, depth: nat): (t: Tree)
    requires TurnInvariant(s)
    ensures Proper(t)
    decreases depth, 2
  {
    if depth == 0 then Leaf(Fin(Evaluate(s)))
    else
      var lm := GameLegalMoves(s);
      var cur := lm.after;
      if lm.moves == [] then Leaf(NoMoveValue(cur))
      else if IsDraw(cur) then Leaf(Fin(0))
      else
        NodeMoves(s);
        Node(cur.turn == White, Successors(cur, Below(depth), CapturesFirst(cur, lm.moves)))
  }

  /** The subtrees, searched to depth d, of the positions moves lead to
      from cur, in order. */
  function Successors(cur: State, d: nat, moves: seq<(Square, Square)>): (ts: seq<Tree>)
    requires forall m :: m in moves ==> Playable(cur, m)
    ensures |ts| == |moves|
    ensures forall i :: 0 <= i < |moves| ==> ts[i] == GameTree(Child(cur, moves[i]), d) && Proper(ts[i])
    decreases d + 1, 1
  {
    Grow(ChildStates(cur, moves), d)
  }

  /** The positions moves lead to from cur. */
  function ChildStates(cur: State, moves: seq<(Square, Square)>): (cs: seq<State>)
    requires forall m :: m in moves ==> Playable(cur, m)
    ensures |cs| == |moves|
    ensures forall i :: 0 <= i < |moves| ==> cs[i] == Child(cur, moves[i]) && TurnInvariant(cs[i])
  {
    seq(|moves|, i requires 0 <= i < |moves| => Child(cur, moves[i]))
  }

  /** The trees, searched to depth d, of the positions cs. */
  function Grow(cs: seq<State>, d: nat): (ts: seq<Tree>)
    requires forall i :: 0 <= i < |cs| ==> TurnInvariant(cs[i])
    ensures |ts| == |cs|
    ensures forall i :: 0 <= i < |cs| ==> ts[i] == GameTree(cs[i], d) && Proper(ts[i])
    decreases d + 1, 0
  {
    seq(|cs|, i requires 0 <= i < |cs| => GameTree(cs[i], d))
  }

  /** The moves of an inner node can all be played in the position
      getLegalMoves hands back, which keeps the invariant. */
  lemma NodeMoves(s: State)
    requires TurnInvariant(s)
    ensures var lm := GameLegalMoves(s);
            TurnInvariant(lm.after) && lm.moves == LegalMoves(s)
            && forall m :: m in CapturesFirst(lm.after, lm.moves) ==> Playable(lm.after, m)
  {
    var lm := GameLegalMoves(s);
    Gathered(s);
    TurnInvariantSame(s, lm.after);
    AllPlayable(s, lm.after);
    CapturesFirstSorts(lm.after, lm.moves);
    forall m | m in CapturesFirst(lm.after, lm.moves)
      ensures m in lm.moves
    {
      assert m in multiset(CapturesFirst(lm.after, lm.moves));
    }
  }

  // ---------------------------------------------------------------------
  // The roster order does not change the minimax value
  // ---------------------------------------------------------------------

  /** Every position of the tree above depth 0 keeps at least four roster
      entries, so isDraw, which reads the order of the roster when three are
      left, answers no wherever the search asks it. */
  predicate FarFromDraw(s: State, depth: nat)
  {
    depth == 0 || |s.pieces| >= depth + 3
  }

  /** A move takes at most one entry off a roster without repeats, and none
      when it captures nothing. */
  lemma MoveRoster(s: State, p: PieceId, d: Square)
    requires WF(s) && NoDup(s.pieces) && p in s.info && OnBoard(d)
    ensures |Move(s, p, d).state.pieces| + 1 >= |s.pieces| && NoDup(Move(s, p, d).state.pieces)
    ensures CapturedBy(s, p, d).None? ==> Move(s, p, d).state.pieces == s.pieces
  {
    MoveParts(s, p, d);
    var c := CapturedBy(s, p, d);
    if c.Some? {
      RemoveFirstNoDup(s.pieces, c.value);
      if IsEnPassant(s, p, d) {
        var once := RemoveFirst(s.pieces, c.value);
        assert RemoveFirst(once, c.value) == once;
      }
    }
  }

  /** A legal turn takes at most one entry off the roster: a capture
      removes one, a promotion replaces the pawn, castling moves the Rook
      onto an empty square. */
  lemma TurnRoster(s: State, p: PieceId, d: Square)
    requires LegalTurn(s, p, d)
    ensures |NextTurnAutoQueen(s, p, d).state.pieces| + 1 >= |s.pieces|
  {
    MoveKeepsWF(s, p, d);
    TurnDataOf(s, p, d);
    NextTurnShape(s, p, d, Queen, 1);
    var data := NextTurnAutoQueen(s, p, d).data;
    var m := Move(s, p, d).state;
    MoveRoster(s, p, d);
    assert NextTurnAutoQueen(s, p, d).state.pieces == Effect(s, p, d, Queen, 1, data).pieces;
    if data.promotion {
    } else if data.twoUp {
    } else if data.shortCastle || data.longCastle {
      CastleRoster(s, p, d, data.shortCastle);
    }
  }

  /** Castling: the King moves onto an empty square, then the Rook. */
  lemma CastleRoster(s: State, p: PieceId, d: Square, right: bool)
    requires LegalTurn(s, p, d) && s.info[p].kind == King
    requires if right then s.info[p].pos.col + 2 == d.col else s.info[p].pos.col - 2 == d.col
    requires (MoveKeepsWF(s, p, d); Square(s.info[p].pos.row, CornerCol(right)) in Move(s, p, d).state.board)
    ensures (MoveKeepsWF(s, p, d);
             |CastleRook(Move(s, p, d).state, s.info[p].pos.row, right).pieces| + 1 >= |s.pieces|)
  {
    MoveKeepsWF(s, p, d);
    CastleGeometry(s, p, d, right);
    assert At(s, s.info[p].pos) == Some(p);
    assert !IsEnPassant(s, p, d);
    MoveRoster(s, p, d);
    var m := Move(s, p, d).state;
    var row := s.info[p].pos.row;
    MoveRoster(m, m.board[Square(row, CornerCol(right))], Square(row, JumpCol(right)));
  }

  /** Legal moves do not depend on the order of the roster. */
  lemma LegalMovesSame(x: State, y: State)
    requires Coherent(x) && SameButOrder(x, y)
    ensures WF(y) && forall m :: m in LegalMoves(x) <==> m in LegalMoves(y)
  {
    SameButOrderWF(x, y);
    forall q | q in x.pieces
      ensures q in y.pieces && LegalMovesOf(y, q) == LegalMovesOf(x, q)
    {
      LegalMovesOfSame(x, y, q);
    }
  }

  /** Positions that differ only in the order of the roster have trees of
      the same minimax value, as long as isDraw is not asked of three
      pieces. */
  lemma GameTreeSame(x: State, y: State, depth: nat)
    requires TurnInvariant(x) && SameButOrder(x, y) && FarFromDraw(x, depth)
    ensures TurnInvariant(y) && Minimax(GameTree(y, depth)) == Minimax(GameTree(x, depth))
    decreases depth, 1
  {
    TurnInvariantSame(x, y);
    if depth == 0 {
      EvaluateRestored(x, y);
    } else {
      var lx, ly := GameLegalMoves(x), GameLegalMoves(y);
      Gathered(x);
      Gathered(y);
      LegalMovesSame(x, y);
      assert |y.pieces| == |multiset(y.pieces)| == |x.pieces|;
      IsDrawCases(lx.after);
      IsDrawCases(ly.after);
      NoneBoth(lx.moves, ly.moves);
      if lx.moves == [] {
        CoherentKingHome(x, x.turn);
        InCheckSame(x, y, x.turn);
      } else {
        SameButOrderSymmetric(x, y);
        KidsCovered(x, y, depth);
        KidsCovered(y, x, depth);
        MinimaxSameValues(GameTree(x, depth), GameTree(y, depth));
      }
    }
  }

  /** Two sequences with the same members are empty together. */
  lemma NoneBoth<T>(a: seq<T>, b: seq<T>)
    requires forall m :: m in a <==> m in b
    ensures a == [] <==> b == []
  {
    if a != [] {
      assert a[0] in b;
    }
    if b != [] {
      assert b[0] in a;
    }
  }

  lemma SameButOrderSymmetric(x: State, y: State)
    requires SameButOrder(x, y)
    ensures SameButOrder(y, x)
  {
  }

  /** Each child value of x's node is a child value of y's node: the same
      move leads to positions that differ only in the order of the roster. */
  lemma KidsCovered(x: State, y: State, depth: nat)
    requires TurnInvariant(x) && TurnInvariant(y) && SameButOrder(x, y) && FarFromDraw(x, depth) && depth >= 1
    requires GameTree(x, depth).Node? && GameTree(y, depth).Node?
    ensures forall v :: v in KidValues(GameTree(x, depth)) ==> v in KidValues(GameTree(y, depth))
    decreases depth, 0
  {
    var lx, ly := GameLegalMoves(x), GameLegalMoves(y);
    var cx, cy := lx.after, ly.after;
    NodeKids(x, depth);
    NodeKids(y, depth);
    NodeMoves(x);
    Gathered(x);
    var mx, my := CapturesFirst(cx, lx.moves), CapturesFirst(cy, ly.moves);
    var tx, ty := GameTree(x, depth), GameTree(y, depth);
    SameButOrderSymmetric(x, cx);
    SameButOrderTrans(cx, x, y);
    SameButOrderTrans(cx, y, cy);
    forall v | v in KidValues(tx)
      ensures v in KidValues(ty)
    {
      var i :| 0 <= i < |tx.kids| && KidValues(tx)[i] == v;
      var m := mx[i];
      assert |tx.kids| == |mx|;
      assert m in mx;
      assert Playable(cx, m);
      SameMove(x, y, m);
      var j := IndexOf(my, m);
      assert SameButOrder(cx, cy);
      assert |cx.pieces| >= depth + 3;
      assert j < |ty.kids|;
      ChildSame(cx, cy, m, Below(depth));
      assert KidValues(ty)[j] == v;
    }
  }

  /** An inner node's children are the trees of the positions its moves
      lead to. */
  lemma NodeKids(x: State, depth: nat)
    requires TurnInvariant(x) && depth >= 1 && GameTree(x, depth).Node?
    ensures var lm := GameLegalMoves(x);
            (NodeMoves(x);
             GameTree(x, depth).kids == Successors(lm.after, Below(depth), CapturesFirst(lm.after, lm.moves)))
  {
    NodeMoves(x);
    var lm := GameLegalMoves(x);
    var cur := lm.after;
    var ms := CapturesFirst(cur, lm.moves);
    assert lm.moves != [] && !IsDraw(cur);
  }

  /** A move of the one node is a move of the other. */
  lemma SameMove(x: State, y: State, m: (Square, Square))
    requires TurnInvariant(x) && SameButOrder(x, y)
    requires m in CapturesFirst(GameLegalMoves(x).after, GameLegalMoves(x).moves)
    ensures Coherent(y) && m in CapturesFirst(GameLegalMoves(y).after, GameLegalMoves(y).moves)
  {
    TurnInvariantSame(x, y);
    var lx, ly := GameLegalMoves(x), GameLegalMoves(y);
    Gathered(x);
    Gathered(y);
    LegalMovesSame(x, y);
    var fx, fy := CapturesFirst(lx.after, lx.moves), CapturesFirst(ly.after, ly.moves);
    CapturesFirstSorts(lx.after, lx.moves);
    CapturesFirstSorts(ly.after, ly.moves);
    assert m in multiset(fx);
    assert m in lx.moves;
    assert m in LegalMoves(y);
    assert m in multiset(ly.moves);
  }

  /** Where x stands in s. */
  lemma IndexOf<T>(s: seq<T>, x: T) returns (j: nat)
    requires x in s
    ensures j < |s| && s[j] == x
  {
    j :| 0 <= j < |s| && s[j] == x;
  }

  /** The same move played in two positions that differ only in the order
      of the roster leads to trees of the same minimax value. */
  lemma ChildSame(cx: State, cy: State, m: (Square, Square), d: nat)
    requires Playable(cx, m) && SameButOrder(cx, cy) && |cx.pieces| >= d + 4
    ensures Playable(cy, m)
    ensures Minimax(GameTree(Child(cy, m), d)) == Minimax(GameTree(Child(cx, m), d))
    decreases d + 1, 0, 0
  {
    PlayableSame(cx, cy, m);
    var p := cx.board[m.0];
    assert cy.board == cx.board;
    NextTurnSame(cx, cy, p, m.1);
    TurnRoster(cx, p, m.1);
    var a, b := Child(cx, m), Child(cy, m);
    assert a == NextTurnAutoQueen(cx, p, m.1).state;
    assert b == NextTurnAutoQueen(cy, p, m.1).state;
    GameTreeSame(a, b, d);
  }

  // ---------------------------------------------------------------------
  // The search computes the minimax value
  // ---------------------------------------------------------------------

  /** constructGameTree with a window a < b fails soft around the minimax
      value of the game tree of the position (AlphaBeta.FailSoft): a value
      strictly inside the window is the minimax value, one at or beyond
      an edge bounds it from that side. */
  lemma SearchPosFailSoft(s: State, depth: nat, a: Score, b: Score)
    requires TurnInvariant(s) && Lt(a, b) && FarFromDraw(s, depth)
    ensures SearchPos(s, depth, a, b).Some?
    ensures FailSoft(SearchPos(s, depth, a, b).value.value, Minimax(GameTree(s, depth)), a, b)
    decreases depth, 1
  {
    SearchPosSome(s, depth, a, b);
    if depth > 0 {
      var lm := GameLegalMoves(s);
      var cur := lm.after;
      if lm.moves != [] && !IsDraw(cur) {
        NodeMoves(s);
        Gathered(s);
        var moves := CapturesFirst(cur, lm.moves);
        var t := GameTree(s, depth);
        NodeTree(s, depth);
        SearchPosNode(s, depth, a, b);
        LoopFailSoft(cur, cur, depth, moves, t, a, b, [], 0, Loop(a, b, None));
      }
    }
  }

  /** At an inner node the game tree is a node over the trees of the
      sorted legal moves, for the side to move. */
  lemma NodeTree(s: State, depth: nat)
    requires TurnInvariant(s) && depth >= 1
    requires GameLegalMoves(s).moves != [] && !IsDraw(GameLegalMoves(s).after)
    ensures var lm := GameLegalMoves(s);
            (NodeMoves(s);
             GameTree(s, depth) == Node(lm.after.turn == White, Successors(lm.after, Below(depth), CapturesFirst(lm.after, lm.moves))))
  {
    NodeMoves(s);
  }

  /** At an inner node the search is the loop over the sorted legal moves
      from a fresh loop state. */
  lemma SearchPosNode(s: State, depth: nat, a: Score, b: Score)
    requires TurnInvariant(s) && depth >= 1
    requires GameLegalMoves(s).moves != [] && !IsDraw(GameLegalMoves(s).after)
    ensures var lm := GameLegalMoves(s);
            SearchPos(s, depth, a, b) == MovesLoop(lm.after, depth, CapturesFirst(lm.after, lm.moves), a, b, [], Loop(a, b, None))
  {
  }

  /** The loop of a node over moves, run on a reordering c of the node's
      position base, from child |kids| on in the invariant of the node's
      tree t, ends fail-soft around the node's minimax value. */
  lemma LoopFailSoft(base: State, c: State, depth: nat, moves: seq<(Square, Square)>, t: Tree, a: Score, b: Score,
                     kids: seq<Score>, i: nat, l: Loop)
    requires TurnInvariant(base) && SameButOrder(base, c) && depth >= 1 && |base.pieces| >= depth + 3
    requires moves != [] && i == |kids| <= |moves| && forall m :: m in moves ==> Playable(base, m)
    requires t == Node(base.turn == White, Successors(base, Below(depth), moves))
    requires Tracks(base.turn == White, a, b, kids, l) && AlphaBeta.Invariant(t, i, l, a, b)
    ensures TurnInvariant(c) && MovesLoop(c, depth, moves, a, b, kids, l).Some?
    ensures FailSoft(MovesLoop(c, depth, moves, a, b, kids, l).value.value, Minimax(t), a, b)
    decreases depth, 0, |moves| - i, 1
  {
    TurnInvariantSame(base, c);
    PlayablesSame(base, c, moves);
    LoopSome(c, depth, moves, a, b, kids, l);
    if |kids| == |moves| {
      DoneFailSoft(t, l, a, b);
      LoopDone(c, depth, moves, a, b, kids, l);
    } else {
      NextFailSoft(base, c, depth, moves, t, a, b, kids, i, l);
    }
  }

  /** The loop after its last child returns the best value so far. */
  lemma LoopDone(c: State, depth: nat, moves: seq<(Square, Square)>, a: Score, b: Score,
                 kids: seq<Score>, l: Loop)
    requires Coherent(c) && depth >= 1 && moves != [] && |kids| == |moves|
    requires Tracks(c.turn == White, a, b, kids, l)
    ensures MovesLoop(c, depth, moves, a, b, kids, l) == Some(Outcome(l.best.value.0, Some(moves[l.best.value.1]), kids, c))
  {
  }

  /** The loop's turn for child |kids|: the child's search, then a cut-off
      or the rest of the loop. */
  lemma NextFailSoft(base: State, c: State, depth: nat, moves: seq<(Square, Square)>, t: Tree, a: Score, b: Score,
                     kids: seq<Score>, i: nat, l: Loop)
    requires TurnInvariant(base) && TurnInvariant(c) && SameButOrder(base, c) && depth >= 1 && |base.pieces| >= depth + 3
    requires moves != [] && i == |kids| < |moves| && forall m :: m in moves ==> Playable(base, m)
    requires t == Node(base.turn == White, Successors(base, Below(depth), moves))
    requires Tracks(base.turn == White, a, b, kids, l) && AlphaBeta.Invariant(t, i, l, a, b)
    requires MovesLoop(c, depth, moves, a, b, kids, l).Some?
    ensures FailSoft(MovesLoop(c, depth, moves, a, b, kids, l).value.value, Minimax(t), a, b)
    decreases depth, 0, |moves| - i, 0
  {
    var m := moves[i];
    ChildFailSoft(base, c, depth, m, l.alpha, l.beta);
    var (v, after) := Play(c, depth, m, l.alpha, l.beta).value;
    assert t.kids[i] == GameTree(Child(base, m), Below(depth));
    var j := i + 1;
    StepFailSoft(t, i, j, l, a, b, v);
    LoopUnfold(c, depth, moves, a, b, kids, l);
    var l' := Step(t.white, l, i, v);
    if !Cut(l') {
      SameButOrderTrans(base, c, after);
      LoopFailSoft(base, after, depth, moves, t, a, b, kids + [v], j, l');
    }
  }

  /** One turn of the loop of constructGameTree: the child's value v
      updates the loop state; after a cut-off the loop returns its best
      value, otherwise it goes on from the position the child handed back. */
  lemma LoopUnfold(c: State, depth: nat, moves: seq<(Square, Square)>, a: Score, b: Score,
                   kids: seq<Score>, l: Loop)
    requires Coherent(c) && depth >= 1 && moves != [] && |kids| < |moves|
    requires Tracks(c.turn == White, a, b, kids, l)
    requires Play(c, depth, moves[|kids|], l.alpha, l.beta).Some?
    ensures var (v, after) := Play(c, depth, moves[|kids|], l.alpha, l.beta).value;
            var l' := Step(c.turn == White, l, |kids|, v);
            Coherent(after) && Tracks(c.turn == White, a, b, kids + [v], l')
            && (Cut(l') ==> MovesLoop(c, depth, moves, a, b, kids, l).Some?
                            && MovesLoop(c, depth, moves, a, b, kids, l).value.value == l'.best.value.0)
            && (!Cut(l') ==> MovesLoop(c, depth, moves, a, b, kids, l) == MovesLoop(after, depth, moves, a, b, kids + [v], l'))
  {
    var (v, after) := Play(c, depth, moves[|kids|], l.alpha, l.beta).value;
    StepTracks(c.turn == White, a, b, kids, l, v);
  }

  /** The child search for move m from a reordering c of base fails soft
      around the minimax value of the subtree of m below base. */
  lemma ChildFailSoft(base: State, c: State, depth: nat, m: (Square, Square), a: Score, b: Score)
    requires TurnInvariant(base) && TurnInvariant(c) && SameButOrder(base, c) && depth >= 1 && |base.pieces| >= depth + 3
    requires Playable(base, m) && Lt(a, b)
    ensures Play(c, depth, m, a, b).Some?
    ensures FailSoft(Play(c, depth, m, a, b).value.0, Minimax(GameTree(Child(base, m), Below(depth))), a, b)
    decreases depth, 0, 0
  {
    PlayableSame(base, c, m);
    var p := c.board[m.0];
    TurnSafe(c, p, m.1);
    PlaySome(c, depth, m, a, b);
    var t := Child(c, m);
    TurnRoster(c, p, m.1);
    SearchPosFailSoft(t, Below(depth), a, b);
    assert Play(c, depth, m, a, b).value.0 == SearchPos(t, Below(depth), a, b).value.value;
    ChildSame(base, c, m, Below(depth));
  }

  /** Moves playable in a position are playable in any reordering of it. */
  lemma PlayablesSame(base: State, c: State, moves: seq<(Square, Square)>)
    requires SameButOrder(base, c) && forall m :: m in moves ==> Playable(base, m)
    ensures forall m :: m in moves ==> Playable(c, m)
  {
    forall m | m in moves
      ensures Playable(c, m)
    {
      PlayableSame(base, c, m);
    }
  }

  /** With the full window (-infinity, +infinity) the value of
      constructGameTree is the minimax value of the game tree. */
  lemma SearchPosMinimax(s: State, depth: nat)
    requires TurnInvariant(s) && FarFromDraw(s, depth)
    ensures SearchPos(s, depth, NegInf, PosInf).Some?
    ensures SearchPos(s, depth, NegInf, PosInf).value.value == Minimax(GameTree(s, depth))
  {
    SearchPosFailSoft(s, depth, NegInf, PosInf);
  }
}
