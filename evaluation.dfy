/** Game.evaluation and Game.isDraw: the two accumulating loops over the
    roster whose answers the search uses as static values. Scores are in
    twentieths of a pawn (see Pieces.Value). */
module Evaluation {
  import opened Util
  import opened Squares
  import opened Pieces

  /** Every roster entry names a piece with a record. */
  predicate Listed(s: State, ps: seq<PieceId>)
  {
    forall id :: id in ps ==> id in s.info
  }

  /** One piece's term of evaluation(): its value, added for White and
      subtracted for Black. */
  function Signed(s: State, id: PieceId): int
    requires WF(s) && id in s.info
  {
    var r := s.info[id];
    if r.color == White then Value(r.kind, r.color, r.pos) else -Value(r.kind, r.color, r.pos)
  }

  /** The loop of evaluation() over the entries ps, in order. */
  function Material(s: State, ps: seq<PieceId>): int
    requires WF(s) && Listed(s, ps)
    decreases |ps|
  {
    if ps == [] then 0 else Material(s, ps[..|ps| - 1]) + Signed(s, ps[|ps| - 1])
  }

  /** Game.evaluation(): positive values favour White. */
  function Evaluate(s: State): int
    requires WF(s)
  {
    Material(s, s.pieces)
  }

  /** The total value of the pieces of colour c among ps. */
  function SideTotal(s: State, ps: seq<PieceId>, c: Color): (v: int)
    requires WF(s) && Listed(s, ps)
    decreases |ps|
  {
    if ps == [] then 0
    else
      var id := ps[0];
      var r := s.info[id];
      (if r.color == c then Value(r.kind, r.color, r.pos) else 0) + SideTotal(s, ps[1..], c)
  }

  /** Material over a concatenation is the sum of the parts. */
  lemma {:induction false} MaterialAppend(s: State, a: seq<PieceId>, b: seq<PieceId>)
    requires WF(s) && Listed(s, a) && Listed(s, b)
    ensures Listed(s, a + b) && Material(s, a + b) == Material(s, a) + Material(s, b)
    decreases |b|
  {
    if b != [] {
      var b' := b[..|b| - 1];
      assert (a + b)[..|a + b| - 1] == a + b';
      MaterialAppend(s, a, b');
    } else {
      assert a + b == a;
    }
  }

  /** evaluation() is the total value of White's pieces minus the total
      value of Black's. */
  lemma {:induction false} MaterialSplit(s: State, ps: seq<PieceId>)
    requires WF(s) && Listed(s, ps)
    ensures Material(s, ps) == SideTotal(s, ps, White) - SideTotal(s, ps, Black)
    decreases |ps|
  {
    if ps != [] {
      assert ps == [ps[0]] + ps[1..];
      MaterialAppend(s, [ps[0]], ps[1..]);
      assert Material(s, [ps[0]]) == Signed(s, ps[0]) by {
        assert [ps[0]][..0] == [];
      }
      MaterialSplit(s, ps[1..]);
    }
  }

  /** Taking the i-th entry out of a list: its term leaves the sum ... */
  lemma MaterialRemoveAt(s: State, qs: seq<PieceId>, i: int)
    requires WF(s) && Listed(s, qs) && 0 <= i < |qs|
    ensures Listed(s, qs[..i] + qs[i + 1..])
    ensures Material(s, qs) == Material(s, qs[..i] + qs[i + 1..]) + Signed(s, qs[i])
  {
    var x := qs[i];
    assert qs == (qs[..i] + [x]) + qs[i + 1..];
    MaterialAppend(s, qs[..i] + [x], qs[i + 1..]);
    assert (qs[..i] + [x])[..i] == qs[..i];
    MaterialAppend(s, qs[..i], qs[i + 1..]);
  }

  /** ... and one copy of it leaves the multiset. */
  lemma MultisetRemoveAt(qs: seq<PieceId>, i: int)
    requires 0 <= i < |qs|
    ensures multiset(qs[..i] + qs[i + 1..]) == multiset(qs) - multiset{qs[i]}
  {
    assert qs == qs[..i] + [qs[i]] + qs[i + 1..];
  }

  /** The order of the roster does not change evaluation(). */
  lemma {:induction false} MaterialPermutation(s: State, ps: seq<PieceId>, qs: seq<PieceId>)
    requires WF(s) && Listed(s, ps) && multiset(ps) == multiset(qs)
    ensures Listed(s, qs) && Material(s, ps) == Material(s, qs)
    decreases |ps|
  {
    assert forall id :: id in qs ==> id in multiset(ps);
    if ps != [] {
      var x := ps[|ps| - 1];
      var init := ps[..|ps| - 1];
      assert ps == init + [x];
      assert x in multiset(qs);
      var i :| 0 <= i < |qs| && qs[i] == x;
      MultisetRemoveAt(qs, i);
      MultisetRemoveAt(ps, |ps| - 1);
      MaterialPermutation(s, init, qs[..i] + qs[i + 1..]);
      MaterialRemoveAt(s, qs, i);
    }
  }

  /** Material reads only the records of the pieces it sums. */
  lemma {:induction false} MaterialFrame(s: State, t: State, ps: seq<PieceId>)
    requires WF(s) && WF(t) && Listed(s, ps)
    requires forall id :: id in s.info ==> id in t.info && t.info[id] == s.info[id]
    ensures Listed(t, ps) && Material(t, ps) == Material(s, ps)
    decreases |ps|
  {
    if ps != [] {
      MaterialFrame(s, t, ps[..|ps| - 1]);
    }
  }

  /** ... so a position given back by prevTurn (the roster reordered,
      records of undone promotions kept) evaluates as before. */
  lemma EvaluateRestored(s: State, t: State)
    requires WF(s) && WF(t) && multiset(t.pieces) == multiset(s.pieces)
    requires forall id :: id in s.info ==> id in t.info && t.info[id] == s.info[id]
    ensures Evaluate(t) == Evaluate(s)
  {
    MaterialFrame(s, t, s.pieces);
    MaterialPermutation(t, s.pieces, t.pieces);
  }

  // ---------------------------------------------------------------------
  // Game.isDraw
  // ---------------------------------------------------------------------

  /** `p instanceof Knight || p instanceof Bishop`. */
  predicate Minor(s: State, id: PieceId)
    requires id in s.info
  {
    s.info[id].kind == Knight || s.info[id].kind == Bishop
  }

  /** The flag isDraw's loop holds after visiting ps, starting from `flag`:
      every iteration overwrites it. */
  function DrawFlag(s: State, flag: bool, ps: seq<PieceId>): bool
    requires Listed(s, ps)
    decreases |ps|
  {
    if ps == [] then flag else DrawFlag(s, Minor(s, ps[0]), ps[1..])
  }

  /** The flag ends as the test on the last entry alone (its start value
      when there is none). */
  lemma {:induction false} DrawFlagLast(s: State, flag: bool, ps: seq<PieceId>)
    requires Listed(s, ps)
    ensures DrawFlag(s, flag, ps) == if ps == [] then flag else Minor(s, ps[|ps| - 1])
    decreases |ps|
  {
    if |ps| > 1 {
      DrawFlagLast(s, Minor(s, ps[0]), ps[1..]);
    }
  }

  /** Game.isDraw(): two pieces left, or three with the loop's flag set. */
  predicate IsDraw(s: State)
    requires WF(s)
  {
    |s.pieces| == 2 || (|s.pieces| == 3 && DrawFlag(s, false, s.pieces))
  }

  /** isDraw holds with exactly two roster entries; with exactly three it
      holds exactly when the last entry is a Knight or a Bishop (whatever
      the other two are); otherwise it fails. */
  lemma IsDrawCases(s: State)
    requires WF(s)
    ensures |s.pieces| == 2 ==> IsDraw(s)
    ensures |s.pieces| == 3 ==> (IsDraw(s) <==> Minor(s, s.pieces[2]))
    ensures |s.pieces| != 2 && |s.pieces| != 3 ==> !IsDraw(s)
  {
    DrawFlagLast(s, false, s.pieces);
  }

  /** isDraw depends on the order of the roster: with a Knight last the
      three pieces are a draw, and the same three with a King last are
      not. */
  lemma IsDrawOrderMatters(s: State, t: State)
    requires WF(s) && WF(t) && |s.pieces| == 3 && t.info == s.info
    requires t.pieces == [s.pieces[0], s.pieces[2], s.pieces[1]]
    requires s.info[s.pieces[1]].kind == King && s.info[s.pieces[2]].kind == Knight
    ensures multiset(t.pieces) == multiset(s.pieces) && IsDraw(s) && !IsDraw(t)
  {
    assert s.pieces == [s.pieces[0], s.pieces[1], s.pieces[2]];
    IsDrawCases(s);
    IsDrawCases(t);
  }
}
