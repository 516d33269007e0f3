/** Pieces and the game state they live in (Piece.java and its six
    subclasses, and the fields of Game.java). */
module Pieces {
  import opened Util
  import opened Squares

  /** Game.WHITE = 0 and Game.BLACK = 1; `1 - c` is Opp(c). */
  datatype Color = White | Black

  function Opp(c: Color): (r: Color)
    ensures r != c
  {
    if c == White then Black else White
  }

  /** The six subclasses of Piece. */
  datatype Kind = Pawn | Knight | Bishop | Rook | Queen | King

  /** The fields of one piece object: its class and colour never change,
      curPos and nMoves are updated by move/moveBack, and movedTwo (a field
      of Pawn only) records the turn number of a pawn's double step. */
  datatype PieceRec = PieceRec(kind: Kind, color: Color, pos: Square, nMoves: int, movedTwo: int)

  /** A freshly constructed piece: `nMoves = 0` (Piece.java:35) and, for a
      pawn, `movedTwo = 0` (Pawn.java:27). */
  function NewPiece(kind: Kind, color: Color, pos: Square): (r: PieceRec)
    ensures r.kind == kind && r.color == color && r.pos == pos
    ensures r.nMoves == 0 && r.movedTwo == 0
  {
    PieceRec(kind, color, pos, 0, 0)
  }

  /** The whole mutable state of a Game object: the occupants of the 64
      squares, the fields of every piece object ever created, the lists
      `pieces`, `removed` and `promotedPawns`, `currentTurn`, `totalTurns`,
      and the identity the next `new` piece will get. */
  datatype State = State(
    board: Occupancy,
    info: map<PieceId, PieceRec>,
    pieces: seq<PieceId>,
    removed: seq<PieceId>,
    promoted: seq<PieceId>,
    turn: Color,
    totalTurns: int,
    nextId: PieceId)

  /** Basic well-formedness: every reference names an existing piece, every
      recorded square is on the board, move counters are not negative, and
      nextId is unused. */
  predicate WF(s: State)
  {
    (forall sq :: sq in s.board ==> OnBoard(sq) && s.board[sq] in s.info)
    && (forall id :: id in s.info ==> OnBoard(s.info[id].pos) && s.info[id].nMoves >= 0 && id < s.nextId)
    && (forall id :: id in s.pieces ==> id in s.info)
    && (forall id :: id in s.removed ==> id in s.info)
    && (forall id :: id in s.promoted ==> id in s.info)
  }

  /** The piece standing on sq, if any. */
  function At(s: State, sq: Square): (r: Option<PieceId>)
    ensures r.Some? <==> sq in s.board
  {
    Occupant(s.board, sq)
  }

  /** `!sq.isOccupied() || sq.getPiece().getColor() != c`: the test every
      piece uses so that it never captures its own side. */
  predicate EmptyOrEnemy(s: State, sq: Square, c: Color)
    requires WF(s)
  {
    sq !in s.board || s.info[s.board[sq]].color != c
  }

  // ---------------------------------------------------------------------
  // Piece values (getValue and pieceValueTable of each subclass)
  //
  // getValue() = value + 0.1 * table[row][col]. Every table entry is a
  // multiple of 0.5, so 20 * getValue() is an integer: the model works in
  // twentieths of a pawn and stores each table doubled.
  // ---------------------------------------------------------------------

  /** The `value` field of each subclass, in pawns. */
  function BaseValue(k: Kind): (r: int)
    ensures r > 0
  {
    match k
    case Pawn => 1
    case Knight => 3
    case Bishop => 3
    case Rook => 5
    case Queen => 9
    case King => 90
  }

  /** 2 x the table literal written in each subclass, row 0 first. */
  function Table(k: Kind): (t: seq<seq<int>>)
    ensures |t| == 8 && forall i :: 0 <= i < 8 ==> |t[i]| == 8
  {
    match k
    case Pawn => [
      [0, 0, 0, 0, 0, 0, 0, 0],
      [10, 10, 10, 10, 10, 10, 10, 10],
      [2, 2, 4, 6, 6, 4, 2, 2],
      [1, 1, 2, 5, 5, 2, 1, 1],
      [0, 0, 0, 4, 4, 0, 0, 0],
      [1, -1, -2, 0, 0, -2, -1, 1],
      [1, 2, 2, -4, -4, 2, 2, 1],
      [0, 0, 0, 0, 0, 0, 0, 0]]
    case Knight => [
      [-10, -8, -6, -6, -6, -6, -8, -10],
      [-8, -4, 0, 0, 0, 0, -4, -8],
      [-6, 0, 2, 3, 3, 2, 0, -6],
      [-6, 1, 3, 4, 4, 3, 1, -6],
      [-6, 0, 3, 4, 4, 3, 0, -6],
      [-6, 1, 2, 3, 3, 2, 1, -6],
      [-8, -4, 0, 1, 1, 0, -4, -8],
      [-10, -8, -6, -6, -6, -6, -8, -10]]
    case Bishop => [
      [-4, -2, -2, -2, -2, -2, -2, -4],
      [-2, 0, 0, 0, 0, 0, 0, -2],
      [-2, 0, 1, 2, 2, 1, 0, -2],
      [-2, 1, 1, 2, 2, 1, 1, -2],
      [-2, 0, 2, 2, 2, 2, 0, -2],
      [-2, 2, 2, 2, 2, 2, 2, -2],
      [-2, 1, 0, 0, 0, 0, 1, -2],
      [-4, -2, -2, -2, -2, -2, -2, -4]]
    case Rook => [
      [0, 0, 0, 0, 0, 0, 0, 0],
      [1, 2, 2, 2, 2, 2, 2, 1],
      [-1, 0, 0, 0, 0, 0, 0, -1],
      [-1, 0, 0, 0, 0, 0, 0, -1],
      [-1, 0, 0, 0, 0, 0, 0, -1],
      [-1, 0, 0, 0, 0, 0, 0, -1],
      [-1, 0, 0, 0, 0, 0, 0, -1],
      [0, 0, 0, 1, 1, 0, 0, 0]]
    case Queen => [
      [-4, -2, -2, -1, -1, -2, -2, -4],
      [-2, 0, 0, 0, 0, 0, 0, -2],
      [-2, 0, 1, 1, 1, 1, 0, -2],
      [-1, 0, 1, 1, 1, 1, 0, -1],
      [0, 0, 1, 1, 1, 1, 0, -1],
      [-2, 1, 1, 1, 1, 1, 0, -2],
      [-2, 0, 1, 0, 0, 0, 0, -2],
      [-4, -2, -2, -1, -1, -2, -2, -4]]
    case King => [
      [-6, -8, -8, -10, -10, -8, -8, -6],
      [-6, -8, -8, -10, -10, -8, -8, -6],
      [-6, -8, -8, -10, -10, -8, -8, -6],
      [-6, -8, -8, -10, -10, -8, -8, -6],
      [-4, -6, -6, -8, -8, -6, -6, -4],
      [-2, -4, -4, -4, -4, -4, -4, -2],
      [4, 4, 0, 0, 0, 0, 4, 4],
      [4, 6, 2, 0, 0, 2, 6, 4]]
  }

  /** The rows of an 8-row table in the opposite order (Piece.reverse). */
  function Reversed<T>(t: seq<T>): (r: seq<T>)
    requires |t| == 8
    ensures |r| == 8
  {
    seq(8, i requires 0 <= i < 8 => t[7 - i])
  }

  lemma ReversedInvolution<T>(t: seq<T>)
    requires |t| == 8
    ensures Reversed(Reversed(t)) == t
  {
  }

  /** Piece.reverse: swaps row i with row 7-i for i < 4, in place. */
  method Reverse<T>(a: array<T>)
    requires a.Length == 8
    modifies a
    ensures a[..] == Reversed(old(a[..]))
  {
    for i := 0 to 4
      invariant forall j :: 0 <= j < i ==> a[j] == old(a[7 - j]) && a[7 - j] == old(a[j])
      invariant forall j :: i <= j < 8 - i ==> a[j] == old(a[j])
    {
      var temp := a[i];
      a[i] := a[7 - i];
      a[7 - i] := temp;
    }
  }

  /** pieceValueTable(): the table as written for White, reversed for Black. */
  function PieceValueTable(k: Kind, c: Color): (t: seq<seq<int>>)
    ensures |t| == 8 && forall i :: 0 <= i < 8 ==> |t[i]| == 8
  {
    if c == White then Table(k) else Reversed(Table(k))
  }

  /** pieceValueTable() as the source builds it: a fresh array holding the
      table literal, reversed in place for Black. */
  method PieceValueTableArray(k: Kind, c: Color) returns (a: array<seq<int>>)
    ensures fresh(a) && a[..] == PieceValueTable(k, c)
  {
    a := new seq<int>[8](i requires 0 <= i < 8 => Table(k)[i]);
    assert a[..] == Table(k);
    if c != White {
      Reverse(a);
    }
  }

  /** 20 x getValue() of a piece of kind k and colour c standing on sq. */
  function Value(k: Kind, c: Color, sq: Square): (v: int)
    requires OnBoard(sq)
  {
    20 * BaseValue(k) + PieceValueTable(k, c)[sq.row][sq.col]
  }

  /** A Black piece scores exactly as a White piece of the same kind on the
      vertically mirrored square. */
  lemma ValueMirror(k: Kind, sq: Square)
    requires OnBoard(sq)
    ensures Value(k, Black, sq) == Value(k, White, Square(7 - sq.row, sq.col))
  {
  }
}
