/** Game.constructGameTree on positions: depth-limited alpha-beta over
    make and unmake (nextTurnAutoQueen, the child search, prevTurn) on the
    one position it is given, with the node loop of module AlphaBeta. */
module Search {
  import opened Util
  import opened Squares
  import opened Pieces
  import opened Attacks
  import opened Legality
  import opened Turns
  import opened Evaluation
  import opened AlphaBeta
  import opened Queries
  import opened Restoring

  // ---------------------------------------------------------------------
  // Move ordering
  // ---------------------------------------------------------------------

  /** `right.isOccupied()`: the comparator gives such a move the key 0 and
      any other the key 1. */
  predicate IsCapture(s: State, m: (Square, Square))
  {
    m.1 in s.board
  }

  /** The moves of ms whose key is `want` (true for key 0), in order. */
  function Keep(s: State, ms: seq<(Square, Square)>, want: bool): (r: seq<(Square, Square)>)
    ensures |r| <= |ms|
  {
    if ms == [] then []
    else (if IsCapture(s, ms[0]) == want then [ms[0]] else []) + Keep(s, ms[1..], want)
  }

  /** The kept moves are moves of ms with that key. */
  lemma {:induction false} KeepMembers(s: State, ms: seq<(Square, Square)>, want: bool)
    ensures forall m :: m in Keep(s, ms, want) ==> m in ms && IsCapture(s, m) == want
  {
    if ms != [] {
      KeepMembers(s, ms[1..], want);
      assert forall m :: m in ms[1..] ==> m in ms;
    }
  }

  /** Nothing is kept when no move has the key. */
  lemma {:induction false} KeepNone(s: State, ms: seq<(Square, Square)>, want: bool)
    requires forall i :: 0 <= i < |ms| ==> IsCapture(s, ms[i]) != want
    ensures Keep(s, ms, want) == []
  {
    if ms != [] {
      KeepNone(s, ms[1..], want);
    }
  }

  /** moves.sort(comparator): List.sort is stable, so with two keys it puts
      the captures first and the rest after, each group in its original
      order. */
  function CapturesFirst(s: State, ms: seq<(Square, Square)>): (r: seq<(Square, Square)>)
    ensures |r| == |ms|
  {
    KeepSplits(s, ms);
    assert |multiset(Keep(s, ms, true) + Keep(s, ms, false))| == |multiset(ms)|;
    Keep(s, ms, true) + Keep(s, ms, false)
  }

  /** The two groups share out the moves. */
  lemma {:induction false} KeepSplits(s: State, ms: seq<(Square, Square)>)
    ensures multiset(Keep(s, ms, true)) + multiset(Keep(s, ms, false)) == multiset(ms)
  {
    if ms != [] {
      var h, t := ms[0], ms[1..];
      KeepSplits(s, t);
      assert ms == [h] + t;
      assert multiset(ms) == multiset{h} + multiset(t);
      if IsCapture(s, h) {
        assert Keep(s, ms, true) == [h] + Keep(s, t, true);
        assert Keep(s, ms, false) == Keep(s, t, false);
        assert multiset(Keep(s, ms, true)) == multiset{h} + multiset(Keep(s, t, true));
      } else {
        assert Keep(s, ms, true) == Keep(s, t, true);
        assert Keep(s, ms, false) == [h] + Keep(s, t, false);
        assert multiset(Keep(s, ms, false)) == multiset{h} + multiset(Keep(s, t, false));
      }
    }
  }

  /** Keep over a concatenation. */
  lemma {:induction false} KeepAppend(s: State, a: seq<(Square, Square)>, b: seq<(Square, Square)>, want: bool)
    ensures Keep(s, a + b, want) == Keep(s, a, want) + Keep(s, b, want)
  {
    if a == [] {
      assert a + b == b;
    } else {
      var h := if IsCapture(s, a[0]) == want then [a[0]] else [];
      assert (a + b)[0] == a[0] && (a + b)[1..] == a[1..] + b;
      KeepAppend(s, a[1..], b, want);
      assert Keep(s, a + b, want) == h + Keep(s, a[1..] + b, want);
      assert h + (Keep(s, a[1..], want) + Keep(s, b, want)) == (h + Keep(s, a[1..], want)) + Keep(s, b, want);
    }
  }

  /** Keeping what was kept changes nothing; keeping the other group leaves
      nothing. */
  lemma {:induction false} KeepKeep(s: State, ms: seq<(Square, Square)>, want: bool)
    ensures Keep(s, Keep(s, ms, want), want) == Keep(s, ms, want)
    ensures Keep(s, Keep(s, ms, want), !want) == []
  {
    if ms != [] {
      var head := if IsCapture(s, ms[0]) == want then [ms[0]] else [];
      KeepKeep(s, ms[1..], want);
      KeepAppend(s, head, Keep(s, ms[1..], want), want);
      KeepAppend(s, head, Keep(s, ms[1..], want), !want);
      assert head != [] ==> head[1..] == [];
    }
  }

  /** Captures before all other moves. */
  predicate CapturesBefore(s: State, r: seq<(Square, Square)>)
  {
    forall i, j :: 0 <= i < j < |r| && IsCapture(s, r[j]) ==> IsCapture(s, r[i])
  }

  /** The captures followed by the other moves have the captures first. */
  lemma GroupsBefore(s: State, c: seq<(Square, Square)>, q: seq<(Square, Square)>)
    requires forall m :: m in c ==> IsCapture(s, m)
    requires forall m :: m in q ==> !IsCapture(s, m)
    ensures CapturesBefore(s, c + q)
  {
    var r := c + q;
    forall j | |c| <= j < |r|
      ensures !IsCapture(s, r[j])
    {
      assert r[j] == q[j - |c|];
    }
    forall i | 0 <= i < |c|
      ensures IsCapture(s, r[i])
    {
      assert r[i] == c[i];
    }
  }

  /** The ordering is a permutation of the moves with the captures first. */
  lemma CapturesFirstSorts(s: State, ms: seq<(Square, Square)>)
    ensures multiset(CapturesFirst(s, ms)) == multiset(ms)
    ensures CapturesBefore(s, CapturesFirst(s, ms))
  {
    KeepSplits(s, ms);
    KeepMembers(s, ms, true);
    KeepMembers(s, ms, false);
    GroupsBefore(s, Keep(s, ms, true), Keep(s, ms, false));
  }

  /** The ordering keeps each group in the order it had: it is stable. */
  lemma CapturesFirstStable(s: State, ms: seq<(Square, Square)>)
    ensures Keep(s, CapturesFirst(s, ms), true) == Keep(s, ms, true)
    ensures Keep(s, CapturesFirst(s, ms), false) == Keep(s, ms, false)
  {
    var c, q := Keep(s, ms, true), Keep(s, ms, false);
    KeepAppend(s, c, q, true);
    KeepAppend(s, c, q, false);
    KeepKeep(s, ms, true);
    KeepKeep(s, ms, false);
  }

  /** A sequence with the captures first is its captures followed by the
      rest ... */
  lemma {:induction false} SortedSplit(s: State, r: seq<(Square, Square)>)
    requires CapturesBefore(s, r)
    ensures r == Keep(s, r, true) + Keep(s, r, false)
  {
    if r != [] {
      assert CapturesBefore(s, r[1..]) by {
        forall i, j | 0 <= i < j < |r[1..]| && IsCapture(s, r[1..][j])
          ensures IsCapture(s, r[1..][i])
        {
          assert r[1..][i] == r[i + 1] && r[1..][j] == r[j + 1];
        }
      }
      SortedSplit(s, r[1..]);
      if !IsCapture(s, r[0]) {
        forall i | 0 <= i < |r[1..]|
          ensures !IsCapture(s, r[1..][i])
        {
          assert r[1..][i] == r[i + 1];
        }
        KeepNone(s, r[1..], true);
      }
    }
  }

  /** ... so the ordering is the only stable sort on the key: any ordering
      with the captures first that keeps each group's order is it. */
  lemma StableSortUnique(s: State, ms: seq<(Square, Square)>, r: seq<(Square, Square)>)
    requires CapturesBefore(s, r)
    requires Keep(s, r, true) == Keep(s, ms, true) && Keep(s, r, false) == Keep(s, ms, false)
    ensures r == CapturesFirst(s, ms)
  {
    SortedSplit(s, r);
  }

  // ---------------------------------------------------------------------
  // constructGameTree
  // ---------------------------------------------------------------------

  /** What constructGameTree leaves in the root node: its value, its best
      move (none at a leaf), the values of the children it searched in
      order, and the position it hands back. */
  datatype Outcome = Outcome(value: Score, best: Option<(Square, Square)>, kids: seq<Score>, after: State)

  /** The value of a position whose side to move has no legal move: minus
      infinity when White is in check, plus infinity when Black is, zero
      otherwise. */
  function NoMoveValue(s: State): Score
    requires WF(s)
  {
    if InCheck(s, s.turn) then (if s.turn == White then NegInf else PosInf) else Fin(0)
  }

  /** The depth the children of a node searched to depth are searched
      to: constructGameTree recurses with depth - 1. */
  function Below(depth: nat): (d: nat)
    requires depth >= 1
    ensures d + 1 == depth
  {
    depth - 1
  }

  /** constructGameTree(root, depth, alpha, beta) on position s. None marks
      a search that leaves what the model vouches for: a move whose square
      is empty or that is not TurnReady, or a position reached by a move
      that is not Coherent. */
  function SearchPos(s: State, depth: nat, alpha: Score, beta: Score): (r: Option<Outcome>)
    requires Coherent(s)
    ensures r.Some? ==> Coherent(r.value.after) && SameButOrder(s, r.value.after)
    ensures r.Some? && r.value.best.Some? ==> r.value.best.value in GameLegalMoves(s).moves
    decreases depth, 1
  {
    if depth == 0 then Some(Outcome(Fin(Evaluate(s)), None, [], s))
    else
      var lm := GameLegalMoves(s);
      var cur := lm.after;
      if lm.moves == [] then Some(Outcome(NoMoveValue(cur), None, [], cur))
      else if IsDraw(cur) then Some(Outcome(Fin(0), None, [], cur))
      else
        var r := Branch(cur, depth, lm.moves, alpha, beta);
        if r.None? then None
        else
          SameButOrderTrans(s, cur, r.value.after);
          r
  }

  /** An inner node with legal moves ms on position cur: the moves sorted
      captures first, then the loop over them from a fresh loop state. */
  function Branch(cur: State, depth: nat, ms: seq<(Square, Square)>, alpha: Score, beta: Score): (r: Option<Outcome>)
    requires Coherent(cur) && depth >= 1 && ms != []
    ensures r.Some? ==> Coherent(r.value.after) && SameButOrder(cur, r.value.after)
    ensures r.Some? ==> r.value.best.Some? && r.value.best.value in ms
    ensures r.Some? ==> Settled(cur.turn == White, alpha, beta, CapturesFirst(cur, ms), r.value)
    decreases depth, 0, |ms| + 1
  {
    var moves := CapturesFirst(cur, ms);
    var r := MovesLoop(cur, depth, moves, alpha, beta, [], Loop(alpha, beta, None));
    if r.Some? then
      CapturesFirstSorts(cur, ms);
      assert r.value.best.value in moves;
      assert r.value.best.value in multiset(ms);
      r
    else r
  }

  /** The loop of constructGameTree over the sorted moves, from the child
      |kids| on, with the children values kids so far and loop state l. */
  function MovesLoop(cur: State, depth: nat, moves: seq<(Square, Square)>, a: Score, b: Score,
                     kids: seq<Score>, l: Loop): (r: Option<Outcome>)
    requires Coherent(cur) && depth >= 1 && moves != [] && |kids| <= |moves|
    requires Tracks(cur.turn == White, a, b, kids, l)
    ensures r.Some? ==> Coherent(r.value.after) && SameButOrder(cur, r.value.after)
    ensures r.Some? ==> Settled(cur.turn == White, a, b, moves, r.value)
    decreases depth, 0, |moves| - |kids|
  {
    var white := cur.turn == White;
    if |kids| == |moves| then Some(Finish(white, a, b, moves, kids, l, cur))
    else
      var played := Play(cur, depth, moves[|kids|], l.alpha, l.beta);
      if played.None? then None
      else
        var (v, after) := played.value;
        var l' := Step(white, l, |kids|, v);
        StepTracks(white, a, b, kids, l, v);
        if Cut(l') then
          CutCloses(white, a, b, kids + [v], l');
          Some(Finish(white, a, b, moves, kids + [v], l', after))
        else
          var r := MovesLoop(after, depth, moves, a, b, kids + [v], l');
          if r.None? then None
          else
            SameButOrderTrans(cur, after, r.value.after);
            r
  }

  /** The node the loop leaves once it has run through the moves or the
      window has closed: the loop's best value and the move of that child. */
  function Finish(white: bool, a: Score, b: Score, moves: seq<(Square, Square)>,
                  kids: seq<Score>, l: Loop, after: State): (o: Outcome)
    requires kids != [] && |kids| <= |moves| && Tracks(white, a, b, kids, l)
    requires |kids| < |moves| ==> Closed(white, a, b, l.best.value.0)
    ensures Settled(white, a, b, moves, o) && o.kids == kids && o.after == after
  {
    Outcome(l.best.value.0, Some(moves[l.best.value.1]), kids, after)
  }

  /** One iteration of the loop: nextTurnAutoQueen for the piece on the
      move's first square, the child search with the window (alpha, beta),
      then prevTurn; the child's value and the position handed back. */
  function Play(cur: State, depth: nat, m: (Square, Square), alpha: Score, beta: Score): (r: Option<(Score, State)>)
    requires Coherent(cur) && depth >= 1
    ensures r.Some? ==> Coherent(r.value.1) && SameButOrder(cur, r.value.1)
    decreases depth, 0, 0
  {
    var (from, to) := m;
    if from !in cur.board || !OnBoard(to) then None
    else
      var p := cur.board[from];
      if !TurnReady(cur, p, to) then None
      else
        var t := NextTurnAutoQueen(cur, p, to);
        if !Coherent(t.state) then None
        else
          var child := SearchPos(t.state, Below(depth), alpha, beta);
          if child.None? then None
          else Some((child.value.value, Unmake(cur, p, to, t, child.value.after)))
  }

  /** What the loop of a node with window (a, b) over moves returns: the
      children searched are a prefix of the moves, its value is the first
      best of their values, its move the move of that child, and it stopped
      early only on a closed window. */
  predicate Settled(white: bool, a: Score, b: Score, moves: seq<(Square, Square)>, o: Outcome)
  {
    1 <= |o.kids| <= |moves|
    && o.best.Some?
    && (exists k :: 0 <= k < |moves| && FirstBest(white, o.kids, o.value, k) && o.best.value == moves[k])
    && (|o.kids| < |moves| ==> Closed(white, a, b, o.value))
  }

  /** prevTurn after the child search: the position handed back by the
      child is restored from the one the move produced, so prevTurn applies
      to it and gives back a coherent position restored from cur. */
  function Unmake(cur: State, p: PieceId, to: Square, t: Turned, back: State): (after: State)
    requires Coherent(cur) && p in cur.info && OnBoard(to) && TurnReady(cur, p, to)
    requires t == NextTurnAutoQueen(cur, p, to) && SameButOrder(t.state, back)
    ensures Coherent(after) && SameButOrder(cur, after)
  {
    var from := cur.info[p].pos;
    TurnRoundTrip(cur, p, to);
    PrevTurnSame(t.state, back, from, to, t.data);
    var after := PrevTurn(back, from, to, t.data);
    SameButOrderTrans(cur, PrevTurn(t.state, from, to, t.data), after);
    CoherentSame(cur, after);
    after
  }

  // ---------------------------------------------------------------------
  // What a node of the search is
  // ---------------------------------------------------------------------

  /** In a coherent position each King stands on the square it records. */
  lemma CoherentKingHome(s: State, c: Color)
    requires Coherent(s)
    ensures KingHome(s, c)
  {
    if KingOf(s, c).Some? {
      var k := KingOf(s, c).value;
      assert At(s, s.info[k].pos) == Some(k);
    }
  }

  /** The key of a move reads only the board. */
  lemma {:induction false} KeepBoard(s: State, t: State, ms: seq<(Square, Square)>, want: bool)
    requires t.board == s.board
    ensures Keep(t, ms, want) == Keep(s, ms, want)
  {
    if ms != [] {
      KeepBoard(s, t, ms[1..], want);
    }
  }

  /** What getLegalMoves leaves for the search: the legal moves of the side
      to move (none exactly when it has no legal move), and a position with
      the same board, as many roster entries and the same answer to inCheck
      for the side to move. */
  lemma Gathered(s: State)
    requires Coherent(s)
    ensures var lm := GameLegalMoves(s);
            lm.moves == LegalMoves(s) && (lm.moves == [] <==> NoLegalMove(s, s.turn))
            && lm.after.board == s.board && lm.after.turn == s.turn && |lm.after.pieces| == |s.pieces|
            && InCheck(lm.after, s.turn) == InCheck(s, s.turn)
  {
    GameLegalMovesSpec(s);
    NoLegalMoveIff(s, s.turn);
    var cur := GameLegalMoves(s).after;
    assert |cur.pieces| == |multiset(cur.pieces)| == |s.pieces|;
    CoherentKingHome(s, s.turn);
    InCheckSame(s, cur, s.turn);
  }

  /** At depth 0 the node is a leaf valued by evaluation(): the total value
      of White's pieces minus that of Black's; the position is untouched. */
  lemma SearchPosLeaf(s: State, alpha: Score, beta: Score)
    requires Coherent(s)
    ensures var r := SearchPos(s, 0, alpha, beta);
            r.Some? && r.value.best.None? && r.value.kids == [] && r.value.after == s
            && r.value.value == Fin(SideTotal(s, s.pieces, White) - SideTotal(s, s.pieces, Black))
  {
    assert SearchPos(s, 0, alpha, beta) == Some(Outcome(Fin(Evaluate(s)), None, [], s));
    MaterialSplit(s, s.pieces);
  }

  /** Below depth 0, when the side to move has no legal move the node is a
      leaf: minus infinity when White is checkmated, plus infinity when Black
      is, and zero on stalemate. */
  lemma SearchPosNoMove(s: State, depth: nat, alpha: Score, beta: Score)
    requires Coherent(s) && depth >= 1 && NoLegalMove(s, s.turn)
    ensures var r := SearchPos(s, depth, alpha, beta);
            r.Some? && r.value.best.None? && r.value.kids == []
            && (CheckMate(s, s.turn) ==> r.value.value == if s.turn == White then NegInf else PosInf)
            && (StaleMate(s, s.turn) ==> r.value.value == Fin(0))
  {
    Gathered(s);
    var cur := GameLegalMoves(s).after;
    assert SearchPos(s, depth, alpha, beta) == Some(Outcome(NoMoveValue(cur), None, [], cur));
  }

  /** With only the two Kings left the node is a draw valued zero, once the
      side to move has a legal move. */
  lemma SearchPosBareKings(s: State, depth: nat, alpha: Score, beta: Score)
    requires Coherent(s) && depth >= 1 && !NoLegalMove(s, s.turn) && |s.pieces| == 2
    ensures var r := SearchPos(s, depth, alpha, beta);
            r.Some? && r.value.best.None? && r.value.kids == [] && r.value.value == Fin(0)
  {
    Gathered(s);
    var cur := GameLegalMoves(s).after;
    assert SearchPos(s, depth, alpha, beta) == Some(Outcome(Fin(0), None, [], cur));
  }

  /** With three pieces left, once the side to move has a legal move, the
      node is a draw valued zero when the last roster entry after
      getLegalMoves is a Knight or a Bishop. */
  lemma SearchPosMinorDraw(s: State, depth: nat, alpha: Score, beta: Score)
    requires Coherent(s) && depth >= 1 && !NoLegalMove(s, s.turn) && |s.pieces| == 3
    ensures var cur := GameLegalMoves(s).after;
            var r := SearchPos(s, depth, alpha, beta);
            |cur.pieces| == 3
            && (Minor(cur, cur.pieces[2]) ==>
                  r.Some? && r.value.best.None? && r.value.kids == [] && r.value.value == Fin(0))
  {
    Gathered(s);
    var cur := GameLegalMoves(s).after;
    IsDrawCases(cur);
    if Minor(cur, cur.pieces[2]) {
      assert SearchPos(s, depth, alpha, beta) == Some(Outcome(Fin(0), None, [], cur));
    }
  }

  /** A node has a best move only below depth 0, with a legal move to play
      and more than two pieces left, and that move is a legal move of the
      side to move. */
  lemma SearchPosBestLegal(s: State, depth: nat, alpha: Score, beta: Score)
    requires Coherent(s)
    requires SearchPos(s, depth, alpha, beta).Some? && SearchPos(s, depth, alpha, beta).value.best.Some?
    ensures depth >= 1 && !NoLegalMove(s, s.turn) && |s.pieces| != 2
    ensures SearchPos(s, depth, alpha, beta).value.best.value in LegalMoves(s)
  {
    var lm := GameLegalMoves(s);
    assert SearchPos(s, depth, alpha, beta) == Branch(lm.after, depth, lm.moves, alpha, beta);
    Gathered(s);
  }

  /** A node with a best move searched its children in the order of the
      legal moves sorted captures first, each with the window the loop had
      reached: its value is the first best of the values it saw, its move
      that child's move, and it stopped before the last move only when the
      window closed. */
  lemma SearchPosSettled(s: State, depth: nat, alpha: Score, beta: Score)
    requires Coherent(s)
    requires SearchPos(s, depth, alpha, beta).Some? && SearchPos(s, depth, alpha, beta).value.best.Some?
    ensures Settled(s.turn == White, alpha, beta, CapturesFirst(s, LegalMoves(s)), SearchPos(s, depth, alpha, beta).value)
  {
    var lm := GameLegalMoves(s);
    var cur := lm.after;
    assert SearchPos(s, depth, alpha, beta) == Branch(cur, depth, lm.moves, alpha, beta);
    Gathered(s);
    KeepBoard(s, cur, lm.moves, true);
    KeepBoard(s, cur, lm.moves, false);
  }
}
