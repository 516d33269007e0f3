/** The value arithmetic of Game.constructGameTree: scores with the two
    infinities the source uses for mate, the node loop that keeps the first
    best child and narrows the (alpha, beta) window, and the theorem that
    with the full window (-infinity, +infinity) the loop returns the
    minimax value. The theorem is stated over an explicit game tree; the
    search over positions (module Search) runs the same node loop. */
module AlphaBeta {
  import opened Util

  /** A double of the source that is either infinite or a whole number of
      twentieths of a pawn. */
  datatype Score = NegInf | Fin(n: int) | PosInf

  /** `x <= y` on doubles. */
  predicate Le(x: Score, y: Score)
  {
    match (x, y)
    case (NegInf, _) => true
    case (_, PosInf) => true
    case (Fin(a), Fin(b)) => a <= b
    case _ => false
  }

  /** `x < y` on doubles. */
  predicate Lt(x: Score, y: Score)
  {
    !Le(y, x)
  }

  /** Math.max and Math.min. */
  function Max(x: Score, y: Score): (r: Score)
    ensures Le(x, r) && Le(y, r) && (r == x || r == y)
  {
    if Le(x, y) then y else x
  }

  function Min(x: Score, y: Score): (r: Score)
    ensures Le(r, x) && Le(r, y) && (r == x || r == y)
  {
    if Le(x, y) then x else y
  }

  // ---------------------------------------------------------------------
  // One step of the node loop
  // ---------------------------------------------------------------------

  /** The state of the node loop between two children: the window and the
      best value and index so far (None before the first child). */
  datatype Loop = Loop(alpha: Score, beta: Score, best: Option<(Score, nat)>)

  /** The update after child i returned v: the first child, or a strictly
      better one (greater for White, smaller for Black), becomes the best;
      then White raises alpha and Black lowers beta to the best value. */
  function Step(white: bool, l: Loop, i: nat, v: Score): (r: Loop)
    ensures r.best.Some?
    ensures l.best.None? ==> r.best == Some((v, i))
    ensures l.best.Some? ==> r.best.value.0 == (if white then Max(l.best.value.0, v) else Min(l.best.value.0, v))
    ensures white ==> r.alpha == Max(l.alpha, r.best.value.0) && r.beta == l.beta
    ensures !white ==> r.beta == Min(l.beta, r.best.value.0) && r.alpha == l.alpha
  {
    var best :=
      if l.best.None? then (v, i)
      else if white && Lt(l.best.value.0, v) then (v, i)
      else if !white && Lt(v, l.best.value.0) then (v, i)
      else l.best.value;
    if white then Loop(Max(l.alpha, best.0), l.beta, Some(best))
    else Loop(l.alpha, Min(l.beta, best.0), Some(best))
  }

  /** The loop stops once `beta <= alpha`. */
  predicate Cut(l: Loop)
  {
    Le(l.beta, l.alpha)
  }

  /** v is the best of the children values kids for the side to move (the
      greatest for White, the least for Black), first reached at index k. */
  predicate FirstBest(white: bool, kids: seq<Score>, v: Score, k: nat)
  {
    k < |kids| && kids[k] == v
    && (forall j :: 0 <= j < |kids| ==> if white then Le(kids[j], v) else Le(v, kids[j]))
    && (forall j :: 0 <= j < k ==> kids[j] != v)
  }

  /** The node loop after the children values kids, started on the window
      (a, b): the best so far is the first best of kids, and White's alpha
      (Black's beta) has been moved to it unless already past it. */
  predicate Tracks(white: bool, a: Score, b: Score, kids: seq<Score>, l: Loop)
  {
    (kids == [] <==> l.best.None?)
    && (kids == [] ==> l.alpha == a && l.beta == b)
    && (kids != [] ==>
          FirstBest(white, kids, l.best.value.0, l.best.value.1)
          && if white then l.alpha == Max(a, l.best.value.0) && l.beta == b
             else l.beta == Min(b, l.best.value.0) && l.alpha == a)
  }

  lemma MaxAbsorb(a: Score, x: Score, y: Score)
    requires Le(x, y)
    ensures Max(Max(a, x), y) == Max(a, y)
  {
  }

  lemma MinAbsorb(b: Score, x: Score, y: Score)
    requires Le(y, x)
    ensures Min(Min(b, x), y) == Min(b, y)
  {
  }

  /** Each step of the node loop keeps Tracks. */
  lemma StepTracks(white: bool, a: Score, b: Score, kids: seq<Score>, l: Loop, v: Score)
    requires Tracks(white, a, b, kids, l)
    ensures Tracks(white, a, b, kids + [v], Step(white, l, |kids|, v))
  {
    var l' := Step(white, l, |kids|, v);
    var ks := kids + [v];
    assert forall j :: 0 <= j < |kids| ==> ks[j] == kids[j];
    if l.best.Some? {
      var (x, k) := l.best.value;
      if white {
        MaxAbsorb(a, x, l'.best.value.0);
      } else {
        MinAbsorb(b, x, l'.best.value.0);
      }
    }
  }

  /** Where the loop stopped before the last child, the window had closed:
      White's best reached beta (fail high), Black's fell to alpha. */
  predicate Closed(white: bool, a: Score, b: Score, v: Score)
  {
    if white then Le(b, Max(a, v)) else Le(Min(b, v), a)
  }

  /** A cut-off closes the window. */
  lemma CutCloses(white: bool, a: Score, b: Score, kids: seq<Score>, l: Loop)
    requires Tracks(white, a, b, kids, l) && kids != [] && Cut(l)
    ensures Closed(white, a, b, l.best.value.0)
  {
  }

  // ---------------------------------------------------------------------
  // Game trees
  // ---------------------------------------------------------------------

  /** A game tree: a leaf holds a static value (depth 0, mate, stalemate or
      draw); a node holds the side to move and one subtree per legal move,
      in search order. */
  datatype Tree = Leaf(value: Score) | Node(white: bool, kids: seq<Tree>)

  /** Every node has a child: nodes without legal moves are leaves. */
  predicate Proper(t: Tree)
  {
    match t
    case Leaf(_) => true
    case Node(_, kids) => kids != [] && forall i :: 0 <= i < |kids| ==> Proper(kids[i])
  }

  function Width(t: Tree): nat
  {
    if t.Node? then |t.kids| + 1 else 0
  }

  /** The minimax value: a leaf's value, the greatest child value where
      White moves and the least where Black moves. */
  function Minimax(t: Tree): Score
    requires Proper(t)
    decreases t, Width(t)
  {
    match t
    case Leaf(v) => v
    case Node(_, kids) => MinimaxUpTo(t, |kids|)
  }

  /** The extremum of the first i children's minimax values. */
  function MinimaxUpTo(t: Tree, i: nat): Score
    requires Proper(t) && t.Node? && 1 <= i <= |t.kids|
    decreases t, i
  {
    var m := Minimax(t.kids[i - 1]);
    if i == 1 then m
    else if t.white then Max(MinimaxUpTo(t, i - 1), m)
    else Min(MinimaxUpTo(t, i - 1), m)
  }

  /** The value and chosen child of constructGameTree on an explicit tree
      with window (alpha, beta). */
  function Search(t: Tree, alpha: Score, beta: Score): (r: (Score, nat))
    requires Proper(t)
    decreases t, Width(t)
  {
    match t
    case Leaf(v) => (v, 0)
    case Node(_, _) => Children(t, 0, Loop(alpha, beta, None))
  }

  /** The loop over the children from index i on. */
  function Children(t: Tree, i: nat, l: Loop): (r: (Score, nat))
    requires Proper(t) && t.Node? && i <= |t.kids|
    requires i == 0 <==> l.best.None?
    decreases t, |t.kids| - i
  {
    if i == |t.kids| then l.best.value
    else
      var v := Search(t.kids[i], l.alpha, l.beta).0;
      var l' := Step(t.white, l, i, v);
      if Cut(l') then l'.best.value else Children(t, i + 1, l')
  }

  /** The minimax value of the first i children is the value of one of
      them, the greatest where White moves and the least where Black
      moves. */
  lemma {:induction false} UpToExtremum(t: Tree, i: nat)
    requires Proper(t) && t.Node? && 1 <= i <= |t.kids|
    ensures exists j :: 0 <= j < i && MinimaxUpTo(t, i) == Minimax(t.kids[j])
    ensures forall j :: 0 <= j < i ==>
              if t.white then Le(Minimax(t.kids[j]), MinimaxUpTo(t, i)) else Le(MinimaxUpTo(t, i), Minimax(t.kids[j]))
    decreases i
  {
    var m := Minimax(t.kids[i - 1]);
    if i == 1 {
      assert MinimaxUpTo(t, i) == m;
    } else {
      UpToExtremum(t, i - 1);
      var j :| 0 <= j < i - 1 && MinimaxUpTo(t, i - 1) == Minimax(t.kids[j]);
      if MinimaxUpTo(t, i) != m {
        assert MinimaxUpTo(t, i) == Minimax(t.kids[j]);
      }
    }
  }

  /** The minimax values of a node's children, in order. */
  function KidValues(t: Tree): (vs: seq<Score>)
    requires Proper(t) && t.Node?
    ensures |vs| == |t.kids| && forall i :: 0 <= i < |t.kids| ==> vs[i] == Minimax(t.kids[i])
  {
    seq(|t.kids|, i requires 0 <= i < |t.kids| => Minimax(t.kids[i]))
  }

  /** Two nodes of the same side whose children take the same minimax
      values, in any order and any number of times, have the same minimax
      value: the order in which the moves are searched does not change it. */
  lemma MinimaxSameValues(t: Tree, u: Tree)
    requires Proper(t) && Proper(u) && t.Node? && u.Node? && t.white == u.white
    requires forall v :: v in KidValues(t) <==> v in KidValues(u)
    ensures Minimax(t) == Minimax(u)
  {
    var vt, vu := KidValues(t), KidValues(u);
    UpToExtremum(t, |t.kids|);
    UpToExtremum(u, |u.kids|);
    var x, y := Minimax(t), Minimax(u);
    var i :| 0 <= i < |t.kids| && x == Minimax(t.kids[i]);
    var j :| 0 <= j < |u.kids| && y == Minimax(u.kids[j]);
    assert vt[i] in vu;
    var j' :| 0 <= j' < |u.kids| && vu[j'] == x;
    assert vu[j] in vt;
    var i' :| 0 <= i' < |t.kids| && vt[i'] == y;
    LeAntisymmetric(x, y);
  }

  lemma LeAntisymmetric(x: Score, y: Score)
    requires Le(x, y) && Le(y, x)
    ensures x == y
  {
  }

  // ---------------------------------------------------------------------
  // Correctness
  // ---------------------------------------------------------------------

  /** What a search with window (a, b) promises about the minimax value m
      of what it searched: a result at or below a bounds m from above, one
      at or above b bounds m from below, and one strictly inside the window
      is m itself. */
  predicate FailSoft(r: Score, m: Score, a: Score, b: Score)
  {
    (Le(r, a) ==> Le(m, r)) && (Le(b, r) ==> Le(r, m)) && (Lt(a, r) && Lt(r, b) ==> r == m)
  }

  /** Later children only push the extremum further. */
  lemma {:induction false} UpToMonotone(t: Tree, i: nat, j: nat)
    requires Proper(t) && t.Node? && 1 <= i <= j <= |t.kids|
    ensures t.white ==> Le(MinimaxUpTo(t, i), MinimaxUpTo(t, j))
    ensures !t.white ==> Le(MinimaxUpTo(t, j), MinimaxUpTo(t, i))
    decreases j
  {
    if i < j {
      UpToMonotone(t, i, j - 1);
    }
  }

  /** The loop invariant of Children for a node searched with window
      (a, b), no cut-off yet: White's alpha is a raised to the best value x
      so far (Black's beta is b lowered to it), and x stands to the first i
      children as a search result stands to its tree. */
  predicate Invariant(t: Tree, i: nat, l: Loop, a: Score, b: Score)
    requires Proper(t) && t.Node? && i <= |t.kids|
  {
    Lt(a, b) && Lt(l.alpha, l.beta)
    && (i == 0 <==> l.best.None?)
    && (i == 0 ==> l.alpha == a && l.beta == b)
    && (i > 0 ==>
          var x := l.best.value.0;
          var m := MinimaxUpTo(t, i);
          (if t.white then l.alpha == Max(a, x) && l.beta == b
           else l.beta == Min(b, x) && l.alpha == a)
          && (Lt(a, x) && Lt(x, b) ==> m == x))
    && (i > 0 ==>
          var x := l.best.value.0;
          var m := MinimaxUpTo(t, i);
          (t.white ==> (Le(x, a) ==> Le(m, x)))
          && (!t.white ==> (Le(b, x) ==> Le(x, m))))
  }

  /** Alpha-beta with a window a < b fails soft around the minimax value. */
  lemma {:induction false} SearchFailSoft(t: Tree, a: Score, b: Score)
    requires Proper(t) && Lt(a, b)
    ensures FailSoft(Search(t, a, b).0, Minimax(t), a, b)
    decreases t, Width(t)
  {
    match t
    case Leaf(v) =>
    case Node(_, _) =>
      ChildrenFailSoft(t, 0, Loop(a, b, None), a, b);
  }

  /** The loop from child i on, started in the invariant, ends fail-soft
      around the node's minimax value. */
  lemma {:induction false} ChildrenFailSoft(t: Tree, i: nat, l: Loop, a: Score, b: Score)
    requires Proper(t) && t.Node? && i <= |t.kids|
    requires Invariant(t, i, l, a, b)
    ensures FailSoft(Children(t, i, l).0, Minimax(t), a, b)
    decreases t, |t.kids| - i
  {
    if i == |t.kids| {
      assert i > 0;
    } else {
      var kid := t.kids[i];
      var v := Search(kid, l.alpha, l.beta).0;
      SearchFailSoft(kid, l.alpha, l.beta);
      var l' := Step(t.white, l, i, v);
      StepKeeps(t, i, l, a, b, v);
      if Cut(l') {
        UpToMonotone(t, i + 1, |t.kids|);
      } else {
        ChildrenFailSoft(t, i + 1, l', a, b);
      }
    }
  }

  /** One iteration: the child's fail-soft answer v keeps the invariant,
      or the loop cuts off with a value that bounds the node from the side
      it cut on. */
  lemma StepKeeps(t: Tree, i: nat, l: Loop, a: Score, b: Score, v: Score)
    requires Proper(t) && t.Node? && i < |t.kids|
    requires Invariant(t, i, l, a, b)
    requires FailSoft(v, Minimax(t.kids[i]), l.alpha, l.beta)
    ensures var l' := Step(t.white, l, i, v);
            if Cut(l') then
              var x := l'.best.value.0;
              (t.white ==> Le(b, x) && Le(x, MinimaxUpTo(t, i + 1)))
              && (!t.white ==> Le(x, a) && Le(MinimaxUpTo(t, i + 1), x))
            else Invariant(t, i + 1, l', a, b)
  {
  }

  /** One iteration seen from the node: after a cut-off the loop's best
      value is fail-soft around the node's minimax value; otherwise the
      invariant holds one child further. */
  lemma StepFailSoft(t: Tree, i: nat, j: nat, l: Loop, a: Score, b: Score, v: Score)
    requires Proper(t) && t.Node? && i < |t.kids| && j == i + 1
    requires Invariant(t, i, l, a, b)
    requires FailSoft(v, Minimax(t.kids[i]), l.alpha, l.beta)
    ensures var l' := Step(t.white, l, i, v);
            if Cut(l') then FailSoft(l'.best.value.0, Minimax(t), a, b)
            else Invariant(t, j, l', a, b)
  {
    StepKeeps(t, i, l, a, b, v);
    UpToMonotone(t, i + 1, |t.kids|);
  }

  /** A loop that has run through every child in the invariant is
      fail-soft around the node's minimax value. */
  lemma DoneFailSoft(t: Tree, l: Loop, a: Score, b: Score)
    requires Proper(t) && t.Node? && Invariant(t, |t.kids|, l, a, b)
    ensures FailSoft(l.best.value.0, Minimax(t), a, b)
  {
  }

  /** With the full window the search returns the minimax value. */
  lemma FullWindow(t: Tree)
    requires Proper(t)
    ensures Search(t, NegInf, PosInf).0 == Minimax(t)
  {
    SearchFailSoft(t, NegInf, PosInf);
  }
}
