/** The starting position the Game constructor builds: the pieces it
    creates, in the order it creates them, the board they stand on and the
    roster it reads off the board. */
module Setup {
  import opened Util
  import opened Squares
  import opened Pieces
  import opened Rules
  import opened Moves
  import opened Attacks
  import opened Legality

  /** The pieces of a back rank from column 0 to column 7: Rook, Knight,
      Bishop, Queen, King, Bishop, Knight, Rook. */
  function BackRank(col: int): (k: Kind)
    requires 0 <= col < 8
    ensures k != Pawn
    ensures k == King <==> col == 4
  {
    if col == 0 || col == 7 then Rook
    else if col == 1 || col == 6 then Knight
    else if col == 2 || col == 5 then Bishop
    else if col == 3 then Queen
    else King
  }

  /** The piece the constructor creates as its id-th piece (from 0): the
      White back rank on row 0 from column 0 to 7, the Black back rank on
      row 7, then the pawns column by column, the White one on row 1 before
      the Black one on row 6. */
  function StartRec(id: nat): (r: PieceRec)
    requires id < 32
    ensures OnBoard(r.pos) && r.nMoves == 0 && r.movedTwo == 0
    ensures r.kind == Pawn <==> r.pos.row == 1 || r.pos.row == 6
    ensures r.kind != Pawn <==> r.pos.row == 0 || r.pos.row == 7
    ensures r.color == White <==> r.pos.row <= 1
    ensures r.kind == King <==> id == 4 || id == 12
  {
    if id < 8 then NewPiece(BackRank(id), White, Square(0, id))
    else if id < 16 then NewPiece(BackRank(id - 8), Black, Square(7, id - 8))
    else if id % 2 == 0 then NewPiece(Pawn, White, Square(1, (id - 16) / 2))
    else NewPiece(Pawn, Black, Square(6, (id - 16) / 2))
  }

  /** The piece the constructor puts on sq, if any: the inverse of
      StartRec's square. */
  function StartAt(sq: Square): (r: Option<PieceId>)
    ensures r.Some? <==> OnBoard(sq) && (sq.row <= 1 || sq.row >= 6)
    ensures r.Some? ==> r.value < 32 && StartRec(r.value).pos == sq
  {
    if !OnBoard(sq) then None
    else if sq.row == 0 then Some(sq.col)
    else if sq.row == 7 then Some(8 + sq.col)
    else if sq.row == 1 then Some(16 + 2 * sq.col)
    else if sq.row == 6 then Some(17 + 2 * sq.col)
    else None
  }

  /** Every piece the constructor creates is the one StartAt finds on its
      square, so no two of them share a square. */
  lemma StartAtRec(id: nat)
    requires id < 32
    ensures StartAt(StartRec(id).pos) == Some(id)
  {
    if id >= 16 {
      assert id == 16 + 2 * ((id - 16) / 2) + id % 2;
    }
  }

  /** The board once the first n pieces are placed, each on its square. */
  function StartBoard(n: nat): Occupancy
    requires n <= 32
  {
    if n == 0 then map[] else StartBoard(n - 1)[StartRec(n - 1).pos := n - 1]
  }

  /** The pieces' fields once the first n pieces are created. */
  function StartInfo(n: nat): map<PieceId, PieceRec>
    requires n <= 32
  {
    if n == 0 then map[] else StartInfo(n - 1)[n - 1 := StartRec(n - 1)]
  }

  /** The squares the first n pieces cover, and the piece on each: no
      placement lands on the square of an earlier one. */
  lemma {:induction false} StartBoardAt(n: nat, sq: Square)
    requires n <= 32
    ensures sq in StartBoard(n) <==> StartAt(sq).Some? && StartAt(sq).value < n
    ensures sq in StartBoard(n) ==> StartBoard(n)[sq] == StartAt(sq).value
  {
    if n > 0 {
      var last := StartRec(n - 1).pos;
      StartBoardAt(n - 1, sq);
      StartAtRec(n - 1);
      if sq == last {
        assert StartBoard(n)[sq] == n - 1;
      } else {
        assert sq in StartBoard(n) <==> sq in StartBoard(n - 1);
        assert StartAt(sq) != Some(n - 1);
      }
    }
  }

  /** The pieces created so far are those numbered below n, each with the
      fields StartRec gives it. */
  lemma {:induction false} StartInfoAt(n: nat, id: PieceId)
    requires n <= 32
    ensures id in StartInfo(n) <==> id < n
    ensures id in StartInfo(n) ==> StartInfo(n)[id] == StartRec(id)
  {
    if n > 0 {
      StartInfoAt(n - 1, id);
    }
  }

  /** The k-th square in the order of the constructor's last loop: rows
      from 0 to 7, each from column 0 to 7. */
  function Cell(k: nat): (sq: Square)
    requires k < 64
    ensures OnBoard(sq)
  {
    Square(k / 8, k % 8)
  }

  lemma CellAt(row: int, col: int)
    requires 0 <= row < 8 && 0 <= col < 8
    ensures Cell(8 * row + col) == Square(row, col)
  {
  }

  /** The roster the constructor reads off board b from its first n squares
      in row-major order: each occupant in the order of its square. */
  function Scan(b: Occupancy, n: nat): (r: seq<PieceId>)
    requires n <= 64
    ensures |r| <= n
    decreases n
  {
    if n == 0 then []
    else Scan(b, n - 1) + (if Cell(n - 1) in b then [b[Cell(n - 1)]] else [])
  }

  /** The roster holds exactly the occupants of the squares scanned. */
  lemma {:induction false} ScanHas(b: Occupancy, n: nat, x: PieceId)
    requires n <= 64
    ensures x in Scan(b, n) <==> exists k :: 0 <= k < n && Cell(k) in b && b[Cell(k)] == x
  {
    if n > 0 {
      ScanHas(b, n - 1, x);
      if Cell(n - 1) in b && b[Cell(n - 1)] == x {
        assert x in Scan(b, n);
      }
    }
  }

  /** A board that holds no piece on two squares is scanned into a roster
      with no repeated entry. */
  lemma {:induction false} ScanNoDup(b: Occupancy, n: nat)
    requires n <= 64
    requires forall s1, s2 :: s1 in b && s2 in b && b[s1] == b[s2] ==> s1 == s2
    ensures NoDup(Scan(b, n))
  {
    if n > 0 {
      ScanNoDup(b, n - 1);
      var sq := Cell(n - 1);
      if sq in b {
        ScanHas(b, n - 1, b[sq]);
      }
    }
  }

  /** s is the state right after `new Game()`: the 32 pieces on their
      squares, the roster read off the board in row-major order, no removed
      or promoted piece, White to move, no turn played yet. */
  predicate Initial(s: State)
  {
    s.nextId == 32 && s.board == StartBoard(s.nextId) && s.info == StartInfo(s.nextId)
    && s.pieces == Scan(s.board, 64) && s.removed == [] && s.promoted == [] && s.turn == White
    && s.totalTurns == 0
  }

  /** Every occupant of the starting board is one of the 32 pieces, on
      the square it records. */
  lemma InitialBoard(s: State)
    requires Initial(s)
    ensures forall sq :: sq in s.board ==> OnBoard(sq) && s.board[sq] < 32 && StartRec(s.board[sq]).pos == sq
  {
    forall sq | sq in s.board
      ensures OnBoard(sq) && s.board[sq] < 32 && StartRec(s.board[sq]).pos == sq
    {
      StartBoardAt(s.nextId, sq);
    }
  }

  /** No piece stands on two squares of the starting board. */
  lemma InitialBoardInjective(s: State)
    requires Initial(s)
    ensures forall s1, s2 :: s1 in s.board && s2 in s.board && s.board[s1] == s.board[s2] ==> s1 == s2
  {
    InitialBoard(s);
  }

  /** The pieces' fields in the starting position: those of the 32 pieces
      created, each as StartRec gives it. */
  lemma InitialInfo(s: State)
    requires Initial(s)
    ensures forall id :: id in s.info ==> id < 32 && s.info[id] == StartRec(id)
    ensures forall id: nat :: id < 32 ==> id in s.info
  {
    forall id: PieceId
      ensures id in s.info <==> id < 32
      ensures id in s.info ==> s.info[id] == StartRec(id)
    {
      StartInfoAt(s.nextId, id);
    }
  }

  /** A piece is on the starting roster exactly when it is one of the 32
      the constructor creates. */
  lemma InitialHas(s: State, id: PieceId)
    requires Initial(s)
    ensures id in s.pieces <==> id < 32
  {
    InitialBoard(s);
    ScanHas(s.board, 64, id);
    if id < 32 {
      var sq := StartRec(id).pos;
      StartAtRec(id);
      StartBoardAt(s.nextId, sq);
      CellAt(sq.row, sq.col);
      assert Cell(8 * sq.row + sq.col) in s.board;
    }
  }

  /** The starting roster holds each of the 32 pieces created, and no
      other. */
  lemma InitialRoster(s: State)
    requires Initial(s)
    ensures forall id :: id in s.pieces ==> id < 32
    ensures forall id: nat :: id < 32 ==> id in s.pieces
  {
    forall id | id in s.pieces
      ensures id < 32
    {
      InitialHas(s, id);
    }
    forall id: nat | id < 32
      ensures id in s.pieces
    {
      InitialHas(s, id);
    }
  }

  /** The starting roster names no piece twice. */
  lemma InitialNoDup(s: State)
    requires Initial(s)
    ensures NoDup(s.pieces)
  {
    InitialBoardInjective(s);
    ScanNoDup(s.board, 64);
  }

  /** The fields of the starting position are well formed. */
  lemma InitialWF(s: State)
    requires Initial(s)
    ensures WF(s)
  {
    assert forall sq :: sq in s.board ==> OnBoard(sq) && s.board[sq] in s.info by {
      InitialBoard(s);
      InitialInfo(s);
    }
    assert forall id :: id in s.info ==> OnBoard(s.info[id].pos) && s.info[id].nMoves >= 0 && id < s.nextId by {
      InitialInfo(s);
    }
    assert forall id :: id in s.pieces ==> id in s.info by {
      forall id | id in s.pieces
        ensures id in s.info
      {
        InitialHas(s, id);
        StartInfoAt(s.nextId, id);
      }
    }
  }

  /** The starting position has one King of each colour on the roster:
      piece 4 on e1 and piece 12 on e8. */
  lemma InitialKings(s: State)
    requires Initial(s)
    ensures WF(s) && KingsUnique(s)
  {
    InitialWF(s);
    InitialInfo(s);
    InitialRoster(s);
  }

  /** The squares beside a starting piece on its row hold nothing or
      pieces of its own colour, so it has no en passant move. */
  lemma InitialNoEnPassantFrom(s: State, q: PieceId, d: Square)
    requires WF(s) && s.nextId == 32 && s.board == StartBoard(s.nextId) && s.info == StartInfo(s.nextId)
    requires q in s.info
    ensures !EnPassantAsWritten(s, q, d) && !EnPassant(s, q, d)
  {
    StartInfoAt(s.nextId, q);
    var r := StartRec(q);
    var left := Square(r.pos.row, r.pos.col - 1);
    var right := Square(r.pos.row, r.pos.col + 1);
    StartBoardAt(s.nextId, left);
    StartBoardAt(s.nextId, right);
    assert s.info[q] == r;
    if left in s.board {
      StartInfoAt(s.nextId, s.board[left]);
      assert StartRec(s.board[left]).pos == left;
      assert s.info[s.board[left]].color == r.color;
    }
    if right in s.board {
      StartInfoAt(s.nextId, s.board[right]);
      assert StartRec(s.board[right]).pos == right;
      assert s.info[s.board[right]].color == r.color;
    }
    if r.pos.col < 7 {
      assert !EnPassantBesideAsWritten(s, q, d, 1);
    }
    if r.pos.col > 0 {
      assert !EnPassantBesideAsWritten(s, q, d, -1);
    }
    EnPassantAgrees(s, q, d);
  }

  /** No piece of the starting position can take en passant, by the test
      as written or by the corrected one: the squares beside a pawn hold
      pawns of its own colour. */
  lemma InitialNoEnPassant(s: State)
    requires Initial(s)
    ensures WF(s)
    ensures forall p, d :: p in s.info ==> !EnPassantAsWritten(s, p, d)
    ensures forall p, d :: p in s.info && OnBoard(d) ==> !IsEnPassant(s, p, d)
  {
    InitialWF(s);
    forall p, d | p in s.info
      ensures !EnPassantAsWritten(s, p, d)
    {
      InitialNoEnPassantFrom(s, p, d);
    }
    forall p, d | p in s.info && OnBoard(d)
      ensures !IsEnPassant(s, p, d)
    {
      var occ := At(s, s.info[p].pos);
      if occ.Some? {
        InitialNoEnPassantFrom(s, occ.value, d);
      }
    }
  }

  /** The starting position is coherent: the board and the roster describe
      the same 32 pieces, each on the square it records, with one King of
      each colour and no en passant open. */
  lemma InitialCoherent(s: State)
    requires Initial(s)
    ensures Coherent(s)
  {
    InitialWF(s);
    InitialNoDup(s);
    InitialKings(s);
    InitialNoEnPassant(s);
    assert forall id :: id in s.pieces ==> At(s, s.info[id].pos) == Some(id) by {
      forall id | id in s.pieces
        ensures At(s, s.info[id].pos) == Some(id)
      {
        InitialHas(s, id);
        StartInfoAt(s.nextId, id);
        StartAtRec(id);
        StartBoardAt(s.nextId, StartRec(id).pos);
      }
    }
    assert forall sq :: sq in s.board ==> s.info[s.board[sq]].pos == sq && s.board[sq] in s.pieces by {
      InitialBoard(s);
      InitialInfo(s);
      InitialRoster(s);
    }
  }
}
