/** Squares of the 8x8 board (Position.java). Row 0 is White's back rank,
    column 0 is the a-file. A Position object's identity is its (row, col)
    pair, so squares are compared by value. */
module Squares {
  import opened Util

  datatype Square = Square(row: int, col: int)

  /** Identity of a piece object standing on a square. */
  type PieceId = nat

  predicate OnBoard(sq: Square)
  {
    0 <= sq.row < 8 && 0 <= sq.col < 8
  }

  /** Position.toString: the file letter 'a'+col followed by the rank number
      row+1, as in "e4". */
  function Name(sq: Square): (r: string)
    requires OnBoard(sq)
    ensures |r| == 2 && 'a' <= r[0] <= 'h' && '1' <= r[1] <= '8'
    ensures r[0] as int - 'a' as int == sq.col && r[1] as int - '1' as int == sq.row
  {
    [(sq.col + 'a' as int) as char, (sq.row + '1' as int) as char]
  }

  /** Distinct squares have distinct names. */
  lemma NameInjective(a: Square, b: Square)
    requires OnBoard(a) && OnBoard(b) && Name(a) == Name(b)
    ensures a == b
  {
    assert Name(a)[0] == Name(b)[0] && Name(a)[1] == Name(b)[1];
  }

  /** The occupants of all 64 squares: a square absent from the map is empty. */
  type Occupancy = map<Square, PieceId>

  /** Position.getPiece through the occupancy map. */
  function Occupant(b: Occupancy, sq: Square): (r: Option<PieceId>)
    ensures r.Some? <==> sq in b
    ensures r.Some? ==> b[sq] == r.value
  {
    if sq in b then Some(b[sq]) else None
  }

  /** Position.setPiece through the occupancy map (None empties the square). */
  function SetOccupant(b: Occupancy, sq: Square, p: Option<PieceId>): (r: Occupancy)
    ensures Occupant(r, sq) == p
    ensures forall q :: q != sq ==> Occupant(r, q) == Occupant(b, q)
  {
    match p
    case None => b - {sq}
    case Some(id) => b[sq := id]
  }

  /** One square of the board as an object: fixed coordinates and a mutable
      occupant (Position.java). */
  class Position {
    const row: int
    const col: int
    var occupant: Option<PieceId>

    constructor (row: int, col: int, occupant: Option<PieceId>)
      ensures this.row == row && this.col == col && this.occupant == occupant
    {
      this.row := row;
      this.col := col;
      this.occupant := occupant;
    }

    predicate IsOccupied()
      reads this
    {
      occupant.Some?
    }

    predicate IsEmpty()
      reads this
    {
      !IsOccupied()
    }

    /** The square this object stands for. */
    function At(): (r: Square)
      ensures r.row == row && r.col == col
    {
      Square(row, col)
    }

    method SetPiece(p: Option<PieceId>)
      modifies this
      ensures occupant == p
      ensures IsOccupied() <==> p.Some?
      ensures IsEmpty() <==> p.None?
    {
      occupant := p;
    }

    method GetPiece() returns (p: Option<PieceId>)
      ensures p == occupant
      ensures p.Some? <==> IsOccupied()
    {
      p := occupant;
    }
  }
}
