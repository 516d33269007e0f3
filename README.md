# Chess engine core, modelled in Dafny

This project models the rules engine and the search of a small Java chess
program (package `game`). It covers the following parts:

- **Squares.** The `Position` object is a square with fixed coordinates and a
  mutable occupant.
- **Piece rules.** The six `Piece` subclasses each have:
  - a capture test (`isValidCapture`);
  - a candidate generator (`getPossibleMoves`);
  - a positional value table.
- **Reversible moves.** `Piece.move` and `Piece.moveBack`, and the "move,
  test, move back" legality test built on them.
- **The `Game` object.** It holds the board, the roster `pieces`, the lists
  `removed` and `promotedPawns`, `currentTurn` and `totalTurns`. On top of that
  the model covers:
  - check detection;
  - enumeration of legal moves;
  - making and taking back a turn, including en passant, promotion and
    castling;
  - checkmate, stalemate and draw;
  - the evaluation;
  - the depth-limited alpha-beta search `constructGameTree`.

How the program's objects are represented:

- **Pieces.** A piece object is a `PieceId`. Its fields live in a map
  `info: PieceId -> PieceRec`:
  - class and colour, which never change;
  - `curPos` and `nMoves`;
  - `movedTwo`, which only pawns use.
- **Squares.** A square is the value `Square(row, col)`. The occupants of the 64
  `Position` objects form one map `board: Square -> PieceId`. The program
  compares `Position` objects by reference, but the board holds exactly one
  object per square, so comparing by coordinates gives the same answers.
- **Lists.** The three lists are sequences, and roster order is threaded
  exactly. `List.remove(Object)` is `RemoveFirst`, and `add` appends. A trial
  move that captures puts the captured piece back at the end of the roster,
  and both `isDraw` and the order in which the search tries its moves read
  that order. Restoration is therefore stated as `SameButOrder`: the two
  positions are equal except that one roster is a permutation of the other.
- **Scores.** The program's doubles are whole numbers of twentieths of a pawn.
  Every table entry is a multiple of 0.5, so `20 * (value + 0.1 * entry)` is an
  integer. The infinities the search uses are the constructors
  `NegInf`/`PosInf` of `AlphaBeta.Score`.

The model has two layers:

- **A functional layer.** `State` and functions on it give the
  semantics, with one correction to the en passant test (see "## Left out"
  and "## Findings"). Lemmas prove the properties about these functions.
- **An imperative layer.** The class `Engine.Game` has the fields of the Java
  `Game`. Its methods run the source's loops and updates. Each method is proved
  to leave `Snapshot()` equal to the corresponding function of the old state,
  so every lemma about the functions applies to the object.

`Squares.Position` is the `Position` object itself, and `Pieces.Reverse` is the
in-place array reversal of `Piece.reverse`.

## Model

| member | source | states |
|---|---|---|
| Squares.Name | src/game/Position.java:86-88 | toString is the file letter 'a'..'h' of the column followed by the digit '1'..'8' of the row, and both coordinates can be read back from it |
| Squares.NameInjective | src/game/Position.java:86-88 | two squares of the board with the same name are the same square |
| Squares.Occupant | src/game/Position.java:53-55 | getPiece gives a piece exactly when the square is occupied, and that piece is the square's occupant |
| Squares.SetOccupant | src/game/Position.java:61-63 | after setPiece(p) getPiece returns p, and every other square keeps its occupant |
| Squares.Position.constructor | src/game/Position.java:25-39 | the new square has the given row, column and occupant (none for the two-argument form) |
| Squares.Position.SetPiece | src/game/Position.java:45-47 | after setPiece(p) the occupant is p, isOccupied holds exactly when p is a piece, and isEmpty exactly when it is null |
| Squares.Position.GetPiece | src/game/Position.java:53-55 | getPiece returns the occupant, which is present exactly when isOccupied holds |
| Pieces.Opp | src/game/Game.java:341 | `1 - currentTurn` is the other colour |
| Pieces.BaseValue | src/game/Pawn.java:142-144 | every class has a positive base value (1, 3, 3, 5, 9, 90) |
| Pieces.Table | src/game/Knight.java:53-71 | every value table has 8 rows of 8 entries |
| Pieces.Reversed | src/game/Piece.java:313-319 | the reversal of an 8-row table has 8 rows |
| Pieces.ReversedInvolution | src/game/Piece.java:313-319 | reversing a table twice gives it back |
| Pieces.Reverse | src/game/Piece.java:313-319 | swapping row i with row 7-i for i < 4, in place, leaves the array holding the reversal of its old contents |
| Pieces.PieceValueTable | src/game/Bishop.java:59-77 | pieceValueTable is 8 by 8 for either colour |
| Pieces.PieceValueTableArray | src/game/Rook.java:60-78 | the array pieceValueTable builds (the literal, reversed in place for Black) holds the table as written for White and its reversal for Black |
| Pieces.ValueMirror | src/game/Queen.java:56-78 | a Black piece on (r, c) is worth exactly what a White piece of the same class is worth on (7-r, c) |
| Rules.RayStep | src/game/Game.java:130-137 | step j+1 of a ray from a square is step j of the ray from its neighbour |
| Rules.NothingInBetweenStep | src/game/Game.java:130-137 | one recursive call of nothingInBetween that neither stops nor leaves the board: the current square must be empty and the walk goes on from its neighbour |
| Rules.NothingInBetweenClear | src/game/Game.java:130-137 | when newPos lies k steps along the ray, nothingInBetween holds exactly when the k squares from the start up to newPos, not including newPos, are empty |
| Rules.EnPassantCorrectionAgrees | src/game/Pawn.java:114-140 | the corrected en passant test implies the test as written, and the two agree once a turn has been played |
| Rules.EnPassantAgrees | src/game/Pawn.java:95-140 | every en passant the corrected test accepts, the source's test accepts too; from the first turn on they accept the same moves |
| Rules.EnPassantShape | src/game/Pawn.java:95-140 | an en passant destination is diagonally forward, and the square beside the capturer on the destination's column holds an enemy pawn |
| Rules.PawnAttacksSame | src/game/Pawn.java:42-44 | the Pawn's capture test reads only the board, the pieces' records and the turn count |
| Rules.KnightAttacksSame | src/game/Knight.java:39-47 | the Knight's capture test reads only the board and the records |
| Rules.BishopAttacksSame | src/game/Bishop.java:39-53 | the same for the Bishop |
| Rules.RookAttacksSame | src/game/Rook.java:40-54 | the same for the Rook |
| Rules.QueenAttacksSame | src/game/Queen.java:40-54 | the same for the Queen |
| Rules.EnPassantSame | src/game/Pawn.java:95-105 | the same for the en passant test |
| Attacks.FirstKing | src/game/Game.java:108-118 | the search for a King returns a King of the asked colour from the list, and returns none exactly when the list has no such King |
| Attacks.KingOf | src/game/Game.java:108-118 | getKingPosition finds a roster King of colour c, and none exactly when the roster has no King of that colour |
| Attacks.KingPosition | src/game/Game.java:108-118 | getKingPosition returns a square of the board, and returns one exactly when a King of that colour is on the roster |
| Attacks.ShortPathClear | src/game/King.java:67-74 | the path test of isCastlingShort leaves every square right of the King up to column 6 empty |
| Attacks.LongPathClear | src/game/King.java:82-89 | the path test of isCastlingLong leaves every square left of the King down to column 1 empty |
| Attacks.CastlingTargetEmpty | src/game/King.java:48-89 | castling never lands on an occupied square |
| Attacks.TrialRestores | src/game/King.java:99-107 | a castling trial move of the King onto an empty square captures nothing, is not en passant, and moveBack restores the whole state |
| Attacks.CaptureOnOccupied | src/game/King.java:48-59 | on an occupied square the King's isValidCapture is the one-step test: castling needs an empty destination |
| Attacks.InCheckIff | src/game/Game.java:92-101 | with c's King on the board, inCheck(c) holds exactly when some roster piece of the other colour can capture on the King's square |
| Attacks.SameButOrderWF | src/game/Game.java:92-101 | reordering the roster keeps a state well formed, with the same pieces and the same unmoved squares |
| Attacks.KingOfSame | src/game/Game.java:108-118 | with one King of each colour, getKingPosition does not depend on the order of the roster |
| Attacks.MoveSameButOrder | src/game/Piece.java:144-167 | moving the same piece in two states that differ only in roster order gives two such states |
| Attacks.MoveBackSameButOrder | src/game/Piece.java:174-192 | the same for moveBack |
| Attacks.InCheckSame | src/game/Game.java:92-101 | with the King on its square, inCheck does not depend on the order of the roster |
| Attacks.ThreatensSame | src/game/Piece.java:45-55 | the capture tests without castling do not depend on the order of the roster |
| Moves.MovedBoard | src/game/Piece.java:144-158 | after move the destination holds the mover, and every square other than the mover's old square and the en passant square keeps its occupant |
| Moves.BoardRoundTrip | src/game/Piece.java:174-192 | on the board, moveBack with the captured piece undoes move |
| Moves.CapturedBy | src/game/Piece.java:144-154 | move captures the pawn beside the mover for en passant, and otherwise the occupant of the destination |
| Moves.RosterAfterCapture | src/game/Piece.java:160-164 | a capture takes only the captured piece off the roster, keeps every other entry, and takes nothing when nothing is taken |
| Moves.Move | src/game/Piece.java:144-167 | move returns the captured piece and the en passant flag; the mover's square becomes d and its nMoves grows by one; the turn, the turn count and promotedPawns do not change |
| Moves.MoveBack | src/game/Piece.java:174-192 | moveBack puts the piece back on oldPos with one move fewer, and changes neither the turn nor the turn count nor promotedPawns |
| Moves.MoveParts | src/game/Piece.java:144-167 | move is the board update, the roster update and the append to `removed` of a captured non-King piece |
| Moves.MoveKeepsWF | src/game/Piece.java:144-167 | move keeps the state well formed |
| Moves.MoveBackKeepsWF | src/game/Piece.java:174-192 | moveBack of a piece that has moved keeps the state well formed |
| Moves.MoveBackRestoresBoard | src/game/Piece.java:174-192 | moveBack after move gives every square its occupant back |
| Moves.ListsRoundTrip | src/game/Piece.java:160-192 | taking a captured piece off the roster and appending it to `removed`, then the reverse, restores `removed` exactly and the roster as a multiset |
| Moves.MoveBackRestoresLists | src/game/Piece.java:174-192 | moveBack after move restores `removed` exactly and the roster as a multiset of the same length |
| Moves.InfoRoundTrip | src/game/Piece.java:174-192 | moveBack after move gives the mover its square and move count back |
| Moves.MoveBackUndoesMove | src/game/Piece.java:144-192 | moveBack after move restores every square, every piece's fields, `removed`, `promotedPawns`, the turn and the turn count exactly, and the roster up to order |
| Moves.MoveShrinksUnmoved | src/game/Piece.java:144-158 | a move never adds an unmoved occupant, and it removes one when the mover had not moved (why castling's mutual recursion ends) |
| Generators.MaxSteps | src/game/Piece.java:200-232 | a ray from a square of the board takes between 0 and 8 steps before it leaves the board |
| Generators.WalkMember | src/game/Piece.java:205-231 | a ray loop lists a square exactly when it is a step of the ray within the bound and every earlier step is empty |
| Generators.RayOnBoard | src/game/Piece.java:205-231 | a step of a ray is on the board exactly up to the bound the loop computes |
| Generators.OnRayIff | src/game/Piece.java:205-231 | a ray lists d exactly when d lies in its direction and nothingInBetween from the neighbouring square succeeds, as the sliding pieces' capture tests ask |
| Generators.RayIff | src/game/Piece.java:205-231 | a ray lists exactly the squares in its direction with a clear path |
| Generators.DiagonalIff | src/game/Piece.java:200-232 | addDiagonalMoves lists exactly the diagonal squares with a clear path |
| Generators.DiagonalKeepsColour | src/game/Bishop.java:80-86 | every square addDiagonalMoves lists has the parity of row plus column of the Bishop's square |
| Generators.OrthogonalIff | src/game/Piece.java:240-275 | addOrthogonalMoves lists exactly the squares of the same row or column with a clear path |
| Generators.BishopMovesExact | src/game/Bishop.java:39-53 | Bishop.isValidCapture holds exactly for the squares addDiagonalMoves lists that are empty or enemy-held |
| Generators.RookMovesExact | src/game/Rook.java:40-54 | Rook.isValidCapture holds exactly for the squares addOrthogonalMoves lists that are empty or enemy-held |
| Generators.QueenMovesExact | src/game/Queen.java:40-54 | Queen.isValidCapture holds exactly for the squares the two walkers list that are empty or enemy-held |
| Generators.WalkStep | src/game/Piece.java:205-231 | one iteration of a ray loop adds the next square, then stops if it is occupied |
| Generators.AddRay | src/game/Piece.java:205-212 | one ray loop appends exactly that ray's squares to the list |
| Generators.AddDiagonalMoves | src/game/Piece.java:200-232 | addDiagonalMoves appends the four diagonal rays in the source's order |
| Generators.AddOrthogonalMoves | src/game/Piece.java:240-275 | addOrthogonalMoves appends the four orthogonal rays in the source's order |
| Generators.OnBoardOnly | src/game/Knight.java:80-103 | keeping the squares that pass the bounds tests keeps exactly the on-board squares of the list |
| Generators.OnBoardOnlyNoDup | src/game/Knight.java:80-103 | keeping on-board squares of a list without repeats gives a list without repeats, no longer |
| Generators.KnightMovesIff | src/game/Knight.java:74-106 | the Knight's candidates are exactly its on-board jumps |
| Generators.KnightMovesNoDup | src/game/Knight.java:74-106 | the Knight lists no square twice, and at most eight |
| Generators.RookMovesIff | src/game/Rook.java:81-97 | the Rook's candidates are exactly the other squares of its row and column |
| Generators.RookRoundsCount | src/game/Rook.java:87-94 | after n rounds the Rook's loop has listed 2n squares, less one for its row and one for its column once reached, none twice |
| Generators.RookMovesCount | src/game/Rook.java:81-97 | the Rook always has exactly fourteen candidates, none listed twice |
| Generators.RookPossibleMoves | src/game/Rook.java:81-97 | the Rook's loop builds its candidate list |
| Generators.KingColumnIff | src/game/King.java:134-175 | one column loop of the King lists the on-board squares of that column within one row, except the King's own |
| Generators.KingMovesIff | src/game/King.java:134-175 | the King's candidates are exactly its on-board one-step squares and the on-board squares two columns away on its row |
| Generators.KingMovesLength | src/game/King.java:134-175 | the King lists at most ten squares |
| Generators.AddKingColumn | src/game/King.java:134-175 | a column loop, with its `break` when the side column is off the board, appends that column's squares |
| Generators.KingPossibleMoves | src/game/King.java:134-175 | the King's loops build its candidate list |
| Generators.DiagonalOnBoard | src/game/Piece.java:200-232 | the diagonal rays stay on the board |
| Generators.OrthogonalOnBoard | src/game/Piece.java:240-275 | the orthogonal rays stay on the board |
| Generators.PossibleMoves | src/game/Pawn.java:167-198 | getPossibleMoves of every class lists only squares of the board |
| Generators.GetPossibleMoves | src/game/Queen.java:81-97 | getPossibleMoves as the source runs it, dispatched on the class, gives that list |
| Generators.PawnCandidates | src/game/Pawn.java:167-198 | every square a Pawn may move to or capture on is among its candidates, for an unmoved pawn on its start row |
| Generators.SliderCandidates | src/game/Knight.java:74-106 | every square a Knight, Bishop, Rook or Queen may capture on is among its candidates |
| Legality.CoherentUndoable | src/game/Piece.java:174-192 | in a coherent position moveBack undoes every move of a roster piece |
| Legality.CoherentSame | src/game/Game.java:166-179 | reordering the roster keeps a position coherent |
| Legality.MoveKeepsKings | src/game/Piece.java:160-164 | move takes no King off the roster and adds nobody |
| Legality.MoveKeepsKingOf | src/game/Game.java:108-118 | the King of each colour is the same before and after a move |
| Legality.MoveKingHome | src/game/Piece.java:144-158 | after a move each King's recorded square is still occupied |
| Legality.MoveCheckSame | src/game/Piece.java:45-55 | after the same move in two coherent positions that differ in roster order, inCheck agrees for either side |
| Legality.TrialSafeSame | src/game/King.java:99-107 | a castling trial gives the same answer on any reordering of the roster |
| Legality.NoInterferenceSame | src/game/King.java:99-107 | so does noInterference |
| Legality.CaptureSame | src/game/Piece.java:45-55 | isValidCapture of a roster piece does not depend on the order of the roster |
| Legality.TrialCheck | src/game/Piece.java:45-74 | the trial move, check test and moveBack answer inCheck after the move and leave the position equal but for roster order |
| Legality.IsValidMove | src/game/Piece.java:45-55 | isValidMove leaves the position equal but for roster order |
| Legality.IsValidMoveLegal | src/game/Piece.java:45-55 | isValidMove answers exactly Legal (the side to move is not in check after the move, and isValidCapture holds), and leaves a coherent position |
| Legality.GivesCheck | src/game/Piece.java:63-74 | givesCheck answers whether the other side is in check after the move, and leaves the position equal but for roster order |
| Legality.LegalSame | src/game/Piece.java:45-55 | Legal does not depend on the order of the roster |
| Legality.LegalTargets | src/game/Piece.java:91-97 | the pairs kept are exactly (from, d) for the candidates d that are legal |
| Legality.FilterValid | src/game/Piece.java:91-97 | the filter's trials leave a coherent position equal but for roster order |
| Legality.FilterValidLegal | src/game/Piece.java:91-97 | the filter keeps exactly the legal candidates, in candidate order, although each trial runs on the position the previous one left |
| Legality.PieceLegalMoves | src/game/Piece.java:91-97 | getLegalMoves leaves a coherent position equal but for roster order |
| Legality.LegalMovesOf | src/game/Piece.java:91-97 | getLegalMoves lists exactly the pairs (curPos, d) for candidates d that are legal |
| Legality.PieceLegalMovesSpec | src/game/Piece.java:91-97 | the filter as run returns LegalMovesOf |
| Legality.LegalMovesOfSame | src/game/Piece.java:91-97 | a piece's legal moves do not depend on the order of the roster |
| Legality.KingCandidates | src/game/King.java:134-175 | every square the King may capture on or castle to is among its candidates, when unmoved Kings stand on the e file |
| Legality.CandidatesComplete | src/game/Piece.java:77-97 | getPossibleMoves lists every square isValidCapture accepts, for every class, when unmoved pieces are at home |
| Legality.LegalMovesOfIff | src/game/Piece.java:91-97 | so a piece's getLegalMoves lists exactly its legal moves |
| Legality.SideMovesMembers | src/game/Game.java:166-179 | a move is gathered exactly when it is a legal move of some listed piece of the colour |
| Legality.LegalMoves | src/game/Game.java:166-179 | the moves gathered are exactly the legal moves, listed per piece, of the roster pieces of the side to move |
| Legality.LegalMovesIff | src/game/Game.java:166-179 | with unmoved pieces at home, (a, d) is listed exactly when a roster piece of the side to move stands on a and may legally move to d |
| Legality.NoLegalMoveIff | src/game/Game.java:144-158 | isUnplayable(c) holds exactly when no move is gathered for c |
| Legality.NoLegalMoveMeans | src/game/Game.java:144-158 | for the side to move, isUnplayable means that no piece of that side has any legal move to any square |
| Legality.MateOrStaleMate | src/game/Game.java:186-197 | for the side to move, having no legal move is checkmate or stalemate, and never both |
| Queries.GatherFrom | src/game/Game.java:166-179 | the gathering loop leaves the position equal but for roster order |
| Queries.GameLegalMoves | src/game/Game.java:166-179 | getLegalMoves leaves a coherent position equal but for roster order |
| Queries.SideMovesSame | src/game/Game.java:166-179 | the moves gathered do not depend on the order of the roster |
| Queries.GatherFromMoves | src/game/Game.java:166-179 | the loop over the copy of the roster lists the legal moves of each piece of the colour in order, although each request runs on the position the previous one left |
| Queries.GameLegalMovesSpec | src/game/Game.java:166-179 | getLegalMoves returns LegalMoves |
| Queries.UnplayableFrom | src/game/Game.java:144-158 | the isUnplayable loop leaves the position equal but for roster order |
| Queries.UnplayableFromAnswer | src/game/Game.java:144-158 | the loop answers that no piece of the colour from the current index on has a legal move |
| Queries.GameUnplayable | src/game/Game.java:144-158 | isUnplayable leaves a coherent position equal but for roster order |
| Queries.GameUnplayableSpec | src/game/Game.java:144-158 | isUnplayable(c) answers NoLegalMove(c) |
| Queries.GameCheckMate | src/game/Game.java:186-188 | isCheckMate leaves a coherent position equal but for roster order |
| Queries.GameStaleMate | src/game/Game.java:195-197 | isStaleMate leaves a coherent position equal but for roster order |
| Queries.CheckMateSpec | src/game/Game.java:186-188 | isCheckMate(c) answers inCheck(c) and no legal move for c |
| Queries.StaleMateSpec | src/game/Game.java:195-197 | isStaleMate(c) answers not inCheck(currentTurn) and no legal move for c |
| Turns.Promote | src/game/Game.java:319-327 | promotion puts a new piece of the chosen class and the pawn's colour on d, leaves every existing record alone, and (parked once) takes the pawn off the roster, appends the new piece, and parks the pawn |
| Turns.SetMovedTwo | src/game/Game.java:328-329 | the pawn's double-step marker becomes n |
| Turns.CastleRook | src/game/Game.java:331-340 | the Rook's half of castling keeps the state well formed |
| Turns.NextTurnAutoQueen | src/game/Game.java:303-351 | nextTurnAutoQueen keeps the state well formed, passes the turn and counts one more turn |
| Turns.NextTurn | src/game/Game.java:222-294 | nextTurn with the dialog's answer does the same |
| Turns.LastParkedOn | src/game/Game.java:377-389 | prevTurn's search finds a parked pawn that records the square, the last one in the list when it does, and none only when no parked pawn records it |
| Turns.Forget | src/game/Game.java:377-389 | forgetting the promoted piece changes no square, no list and no other piece's record |
| Turns.PrevTurn | src/game/Game.java:359-397 | prevTurn keeps the state well formed, gives the turn back and counts one turn fewer |
| Turns.PrevTurnUnpromoteSteps | src/game/Game.java:377-389 | undoing a promotion replaces the promoted piece by the last pawn parked on the square, then moves the pawn back |
| Turns.NextTurnShape | src/game/Game.java:303-351 | the turn record holds the captured piece and the five flags exactly as the source computes them (promotion first, then the double step, then castling right, then left) |
| Turns.PrevTurnTwoUp | src/game/Game.java:391 | after a double step prevTurn moves the pawn back and resets its marker to 0 |
| Turns.PromotionUndo | src/game/Game.java:377-389 | prevTurn after a promotion restores the position up to roster order |
| Turns.CastleUndo | src/game/Game.java:392-396 | prevTurn after castling moves the King and then the Rook back, restoring the position up to roster order |
| Turns.EffectOfTwoUp | src/game/Game.java:328-329 | without a promotion a double step only marks the pawn with the new turn count |
| Turns.TurnRoundTrip | src/game/Game.java:303-397 | prevTurn with the record nextTurnAutoQueen returned restores every square, every piece's fields, `removed`, `promotedPawns`, the turn and the turn count, and the roster up to order |
| Turns.TurnCaseUndo | src/game/Game.java:359-397 | the same for any turn record of that shape, case by case: plain move, double step, promotion, castling |
| TurnEffects.MarkerUntouched | src/game/Game.java:328-329 | a turn changes no double-step marker except the mover's, and the mover's only by a double step |
| TurnEffects.DoubleStepOpensWindow | src/game/Game.java:328-329 | after a double step the pawn's marker equals the new turn count, so the next half-move may take it en passant |
| TurnEffects.WindowCloses | src/game/Pawn.java:114-140 | after any later turn a marker is strictly below the turn count, so the pawn can no longer be taken en passant |
| TurnEffects.PromotionEffect | src/game/Game.java:319-327 | a promoted pawn leaves the roster and the board and is parked; a new unmoved piece of the chosen class and the pawn's colour stands on d and is on the roster |
| TurnEffects.CastlingPlacesRook | src/game/Game.java:331-340 | a King moving two columns with a piece on the corner ends on d, the corner piece on column 5 (3), and the corner is empty |
| TurnEffects.NextTurnParksTwice | src/game/Game.java:241-258 | as written, nextTurn appends the promoted pawn to promotedPawns twice |
| TurnEffects.NextTurnNotUndone | src/game/Game.java:241-258 | so prevTurn leaves the pawn parked and does not restore the position |
| TurnEffects.NextTurnParkOnce | src/game/Game.java:222-294 | nextTurn parking once keeps the state well formed, passes the turn and counts one more turn |
| TurnEffects.NextTurnParkOnceRoundTrip | src/game/Game.java:222-294 | parking once, prevTurn undoes nextTurn whatever class the player chose |
| Restoring.PrevTurnSame | src/game/Game.java:359-397 | prevTurn gives results that differ only in roster order when applied to positions that differ only in roster order |
| Restoring.NextTurnSame | src/game/Game.java:303-351 | nextTurnAutoQueen gives the same turn record and positions that differ only in roster order when applied to such positions |
| Restoring.EffectSame | src/game/Game.java:319-340 | the effects of a turn agree on positions that differ only in roster order |
| Evaluation.MaterialAppend | src/game/Game.java:490-505 | the evaluation of two lists joined is the sum of their evaluations |
| Evaluation.MaterialSplit | src/game/Game.java:490-505 | evaluation is the total value of White's pieces minus the total value of Black's |
| Evaluation.MaterialPermutation | src/game/Game.java:490-505 | the order of the roster does not change evaluation |
| Evaluation.MaterialFrame | src/game/Game.java:490-505 | evaluation reads only the records of the pieces it sums |
| Evaluation.EvaluateRestored | src/game/Game.java:490-505 | a position given back by prevTurn evaluates as before |
| Evaluation.DrawFlagLast | src/game/Game.java:208-211 | isDraw's flag ends as the test on the last roster entry alone |
| Evaluation.IsDrawCases | src/game/Game.java:205-213 | isDraw holds with two roster entries; with three it holds exactly when the last is a Knight or a Bishop; otherwise it fails |
| Evaluation.IsDrawOrderMatters | src/game/Game.java:205-213 | there are two positions with the same pieces in different roster order, one a draw and one not |
| AlphaBeta.Max | src/game/Game.java:562-575 | Math.max is an upper bound of both arguments and one of them |
| AlphaBeta.Min | src/game/Game.java:562-575 | Math.min is a lower bound of both arguments and one of them |
| AlphaBeta.Step | src/game/Game.java:562-575 | after a child the loop has a best value: the first child's, or the better of the old best and the child's; White raises alpha and Black lowers beta to it |
| AlphaBeta.StepTracks | src/game/Game.java:549-582 | each iteration keeps the best value the first best of the children seen, and the window moved to it |
| AlphaBeta.CutCloses | src/game/Game.java:573-581 | the loop stops early only when White's best has reached beta or Black's has fallen to alpha |
| AlphaBeta.UpToExtremum | src/game/Game.java:549-582 | the best of the first i children's values is one of them, and bounds all of them |
| AlphaBeta.KidValues | src/game/Game.java:549-582 | the children's minimax values, in order |
| AlphaBeta.MinimaxSameValues | src/game/Game.java:545-582 | the order in which the moves are searched does not change the minimax value |
| AlphaBeta.SearchFailSoft | src/game/Game.java:513-589 | alpha-beta with a window a < b fails soft around the minimax value: a result strictly inside the window is the minimax value, one at an edge bounds it from that side |
| AlphaBeta.ChildrenFailSoft | src/game/Game.java:549-582 | the loop over the children, started in its invariant, ends fail-soft around the node's value |
| AlphaBeta.StepKeeps | src/game/Game.java:562-581 | one iteration keeps the invariant or cuts off with a value that bounds the node from the side it cut on |
| AlphaBeta.FullWindow | src/game/Game.java:513-589 | with the window (-infinity, +infinity) the search returns the minimax value of the tree |
| Search.Keep | src/game/Game.java:545 | a group of moves is no longer than the list |
| Search.KeepMembers | src/game/Game.java:545 | the moves of a group are moves of the list with that key |
| Search.CapturesFirst | src/game/Game.java:545 | the sorted list has as many moves as the list |
| Search.KeepSplits | src/game/Game.java:545 | the captures and the other moves share out the list |
| Search.CapturesFirstSorts | src/game/Game.java:545 | the sort is a permutation with the captures before all other moves |
| Search.CapturesFirstStable | src/game/Game.java:545 | the sort keeps each group in its original order |
| Search.StableSortUnique | src/game/Game.java:545 | any ordering with captures first that keeps each group's order is this one, so it is the stable sort on the key |
| Search.SearchPos | src/game/Game.java:513-589 | constructGameTree leaves a coherent position equal but for roster order, and its best move is a legal move |
| Search.Branch | src/game/Game.java:545-589 | an inner node's best move is one of its moves, and its outcome is the settled node loop over the sorted moves |
| Search.MovesLoop | src/game/Game.java:549-582 | the node loop returns a settled outcome and a coherent position equal but for roster order |
| Search.Finish | src/game/Game.java:584-588 | the node returns the loop's best value and the move of that child |
| Search.Play | src/game/Game.java:552-560 | make, search the child, unmake: the position handed back is coherent and equal but for roster order |
| Search.Unmake | src/game/Game.java:559-560 | prevTurn after the child search gives back a coherent position equal but for roster order |
| Search.Gathered | src/game/Game.java:524-538 | what getLegalMoves leaves for the search: the legal moves (none exactly when there is no legal move), the same board, as many roster entries, and the same answer to inCheck |
| Search.SearchPosLeaf | src/game/Game.java:517-521 | at depth 0 the value is White's material minus Black's, there is no best move, and the position is untouched |
| Search.SearchPosNoMove | src/game/Game.java:530-538 | without a legal move the value is -infinity when White is checkmated, +infinity when Black is, and 0 on stalemate |
| Search.SearchPosBareKings | src/game/Game.java:539-543 | with two pieces left and a legal move the node is a draw valued 0 |
| Search.SearchPosMinorDraw | src/game/Game.java:539-543 | with three pieces left whose last roster entry is a Knight or a Bishop, the node is a draw valued 0 |
| Search.SearchPosBestLegal | src/game/Game.java:545-589 | a node below depth 0 with a legal move and more than two pieces has a best move, and it is a legal move of the side to move |
| Search.SearchPosSettled | src/game/Game.java:545-589 | that node searched the sorted moves in order with the window the loop had reached; its value is the first best of the values seen, its move that child's, and it stopped early only on a closed window |
| Playing.LegalMovesPlayable | src/game/Game.java:166-179 | every move getLegalMoves lists can be played: a piece of the side to move stands on its first square and may legally move to the second |
| Playing.SearchPosSome | src/game/Game.java:513-589 | from every position that keeps the turn invariant, constructGameTree returns a value at every depth with every window |
| Playing.TurnSafe | src/game/Game.java:303-351 | a playable move can be taken back, and leads to a position that keeps the invariant |
| GameTrees.Child | src/game/Game.java:552-553 | the position a legal move leads to keeps the turn invariant |
| GameTrees.GameTree | src/game/Game.java:513-589 | the game tree of a position, with a leaf for depth 0, no move or a draw, and a child per sorted legal move; every node has a child |
| GameTrees.Successors | src/game/Game.java:549-560 | the subtrees are the trees of the positions the moves lead to, in order |
| GameTrees.LegalMovesSame | src/game/Game.java:166-179 | the legal moves do not depend on the order of the roster |
| GameTrees.GameTreeSame | src/game/Game.java:513-589 | positions that differ only in roster order have trees of the same minimax value, as long as isDraw is not asked of three pieces |
| GameTrees.ChildSame | src/game/Game.java:552-560 | the same move in two such positions leads to trees of the same minimax value |
| GameTrees.SearchPosFailSoft | src/game/Game.java:513-589 | constructGameTree with a window a < b fails soft around the minimax value of the position's game tree |
| GameTrees.LoopUnfold | src/game/Game.java:549-582 | one iteration: the child's value updates the loop state; after a cut-off the loop returns its best value, otherwise it goes on from the position the child handed back |
| GameTrees.SearchPosMinimax | src/game/Game.java:513-589 | with the window (-infinity, +infinity) constructGameTree returns the minimax value of the position's game tree |
| Invariant.LegalTurnReady | src/game/Game.java:359-397 | every legal move in a position that keeps the invariant can be taken back by prevTurn |
| Invariant.EnPassantVictimMoved | src/game/Pawn.java:114-140 | with the corrected test, a pawn taken en passant has moved |
| Invariant.EnPassantMarkerCollision | src/game/Pawn.java:114-123 | as written, an unmoved pawn can be taken en passant on turn 0, and the corrected test refuses it |
| Invariant.MarkedEnPassantClear | src/game/Pawn.java:95-140 | when only the pawn that just double-stepped carries the current marker, every en passant destination is empty |
| Invariant.TurnKeepsInvariant | src/game/Game.java:303-351 | every legal turn keeps the invariant: board, records and roster agree, unmoved pieces are at home, markers are sound, and the side that just moved is not in check |
| Invariant.NextTurnKeepsInvariant | src/game/Game.java:222-294 | every legal turn made by nextTurn keeps the invariant, whatever class the promotion dialog returns; a pawn parked twice is still off the roster |
| Invariant.ParkTwice | src/game/Game.java:241-258 | parking the promoted pawn a second time changes only the list of parked pawns |
| Invariant.InitialInvariant | src/game/Game.java:38-77 | the starting position keeps the invariant |
| Invariant.TurnInvariantSame | src/game/Game.java:359-397 | the invariant does not depend on the order of the roster |
| Setup.BackRank | src/game/Game.java:51-61 | a back rank holds no pawn and exactly one King, on column 4 |
| Setup.Scan | src/game/Game.java:67-75 | the roster read off the board has at most one entry per square scanned |
| Setup.ScanHas | src/game/Game.java:67-75 | the roster holds exactly the occupants of the scanned squares |
| Setup.ScanNoDup | src/game/Game.java:67-75 | a board with no piece on two squares gives a roster without repeats |
| Setup.InitialBoard | src/game/Game.java:50-66 | every occupant of the starting board is one of the 32 pieces, on the square it records |
| Setup.InitialInfo | src/game/Game.java:50-66 | the starting records are those of the 32 pieces created, each unmoved |
| Setup.InitialRoster | src/game/Game.java:67-75 | the starting roster holds the 32 pieces and no other |
| Setup.InitialNoDup | src/game/Game.java:67-75 | the starting roster names no piece twice |
| Setup.InitialKings | src/game/Game.java:51-61 | the start has one King of each colour |
| Setup.InitialNoEnPassant | src/game/Pawn.java:95-140 | no piece can take en passant in the starting position, by the source's test as written and by the corrected one |
| Setup.InitialCoherent | src/game/Game.java:38-77 | the starting position is coherent |
| Engine.UpdateBest | src/game/Game.java:562-575 | the best-move update is the loop step: the new move becomes the best or the best is kept, and the window moves to it |
| Engine.Game.constructor | src/game/Game.java:38-77 | new Game() leaves the starting position |
| Engine.Game.PlaceBackRanks | src/game/Game.java:51-61 | the loop over the colours places both back ranks |
| Engine.Game.PlacePawns | src/game/Game.java:62-66 | the loop over the columns places both rows of pawns |
| Engine.Game.ReadRoster | src/game/Game.java:67-75 | the loop over the squares reads the roster off the board row by row |
| Engine.Game.PlaceNew | src/game/Game.java:53-65 | each new piece stands on its square with no move made |
| Engine.Game.MovePiece | src/game/Piece.java:144-167 | move updates the object as Moves.Move says and returns the captured piece and the en passant flag |
| Engine.Game.MoveBackPiece | src/game/Piece.java:174-192 | moveBack updates the object as Moves.MoveBack says |
| Engine.Game.GetKingPosition | src/game/Game.java:108-118 | the loop returns the square of the first King of the colour on the roster |
| Engine.Game.InCheck | src/game/Game.java:92-101 | the loop answers Attacks.InCheck |
| Engine.Game.IsDraw | src/game/Game.java:205-213 | the loop answers Evaluation.IsDraw |
| Engine.Game.Evaluate | src/game/Game.java:490-505 | the loop returns the evaluation |
| Engine.Game.TrialMove | src/game/Piece.java:45-74 | move, test, move back: the answer and the state left are those of the trial |
| Engine.Game.IsValidMove | src/game/Piece.java:45-55 | isValidMove answers Legal and leaves a coherent position |
| Engine.Game.GivesCheck | src/game/Piece.java:63-74 | givesCheck answers and leaves the state as the trial for the other side does |
| Engine.Game.GetPieceLegalMoves | src/game/Piece.java:91-97 | the filter loop returns exactly the piece's legal moves, in candidate order |
| Engine.Game.GetLegalMoves | src/game/Game.java:166-179 | the loop over a copy of the roster returns exactly the legal moves of the side to move |
| Engine.Game.IsUnplayable | src/game/Game.java:144-158 | the loop answers that the colour has no legal move |
| Engine.Game.IsCheckMate | src/game/Game.java:186-188 | isCheckMate answers CheckMate |
| Engine.Game.IsStaleMate | src/game/Game.java:195-197 | isStaleMate answers StaleMate |
| Engine.Game.PromotePawn | src/game/Game.java:319-327 | the promotion step updates the object as Turns.Promote says, with a Queen |
| Engine.Game.MoveCastlingRook | src/game/Game.java:331-340 | the Rook's half of castling updates the object as Turns.CastleRook says |
| Engine.Game.ApplyTurnEffect | src/game/Game.java:318-340 | the first of promotion, double step and castling that applies, with its flags |
| Engine.Game.NextTurnAutoQueen | src/game/Game.java:303-351 | nextTurnAutoQueen updates the object and returns the record as Turns.NextTurnAutoQueen says |
| Engine.Game.FindParked | src/game/Game.java:377-389 | the loop over promotedPawns keeps the last pawn parked on the square |
| Engine.Game.Unpromote | src/game/Game.java:377-389 | the promotion branch of prevTurn swaps the promoted piece for that pawn |
| Engine.Game.UndoSideEffect | src/game/Game.java:390-396 | prevTurn clears the double-step marker or moves the castling Rook back |
| Engine.Game.PrevTurn | src/game/Game.java:359-397 | prevTurn updates the object as Turns.PrevTurn says |
| Engine.Game.ConstructGameTree | src/game/Game.java:513-589 | from a position that keeps the turn invariant, constructGameTree returns SearchPos's value, best move and children values, and leaves the position it gives back |
| Engine.Game.SearchTree | src/game/Game.java:513-589 | the body of constructGameTree returns what SearchPos gives |
| Engine.Game.SearchMoves | src/game/Game.java:549-582 | the loop over the sorted moves returns what MovesLoop gives from a fresh loop state |
| Engine.Game.SearchFrom | src/game/Game.java:549-582 | the loop from the current child on ends in the outcome MovesLoop gives |
| Engine.Game.SearchChild | src/game/Game.java:552-581 | one iteration plays the child, updates best move and window, and either closes the window or leaves the loop ready for the next child |
| Engine.Game.PlayMove | src/game/Game.java:552-560 | make, search the child, unmake: the value and the state are those of Search.Play |

## Left out

- Attacks.InCheck: the model answers false when no King of that colour is on the roster. The source dereferences null there (Game.java:96 after getKingPosition returns null at Game.java:117). Engine.Game.InCheck does the same. The turn invariant says the side that just moved is not in check, so a legal turn never captures a King, but the invariant does not record that both Kings are on the roster, and no lemma proves it.
- Attacks.CastlingShort: an unmoved King on column 7 makes the source index column 8 (King.java:72) and throw. The model answers false.
- Attacks.CastlingLong: an unmoved King on column 0 or 1 makes the source index column -1 (King.java:87, King.java:104) and throw. The model answers false. In play an unmoved King stands on column 4, so neither case arises.
- Generators.PawnMoves: a pawn on its last row makes the source index row 8 or -1 (Pawn.java:177, Pawn.java:188) and throw. The model lists only squares of the board. No pawn stands on its last row in play, because it is promoted on arrival.
- Evaluation.Evaluate: scores are whole numbers of twentieths of a pawn, not doubles (Game.java:490-505). The source adds terms of the form 0.1 * entry in double arithmetic. Its sums can round differently depending on summation order, so two children the model scores as equal may differ slightly in the program.
- AlphaBeta.FirstBest: it relies on exact ties between equal scores. Because of that rounding, the first-best choice is stronger than the program guarantees.
- Evaluation.EvaluateRestored: it is stated on exact integers. With doubles, a reordered roster can change the last bit of the sum.
- Turns.NextTurn: the promotion dialog (Game.java:248-255) is a parameter restricted to Queen, Rook, Bishop or Knight. A cancelled dialog returns null and the source throws at Game.java:260. That path is not modelled: it is user input, and the source states no intended outcome for it.
- GameTrees.SearchPosFailSoft: it assumes FarFromDraw, meaning the roster has at least depth + 3 entries. A move takes at most one entry, so every position the search reaches above depth 0 keeps at least four. With three pieces, isDraw reads the last roster entry (Evaluation.IsDrawOrderMatters). The search and the game tree can then see the roster in different orders.
- GameTrees.SearchPosMinimax: same FarFromDraw hypothesis. Without it, the minimax value of the order-free game tree is not a property of the program.
- Legality.LegalMovesIff: it assumes unmoved pawns stand on their start row and unmoved Kings on the e file. Pawn.twoUp accepts a double step of any unmoved pawn, but getPossibleMoves lists it only from the start row. Every position reached from the start by nextTurnAutoQueen or nextTurn satisfies this (Invariant.InitialInvariant, Invariant.TurnKeepsInvariant, Invariant.NextTurnKeepsInvariant).
- Rules.EnPassant: Move, CapturedBy, IsEnPassant, InCheck, Legal, the move queries and the search use the corrected test (Rules.EnPassantBeside), not the one as written (Rules.EnPassantAsWritten). The two accept the same moves from totalTurns 1 on (Rules.EnPassantCorrectionAgrees, Rules.EnPassantAgrees), so they differ only on positions set up at turn 0, such as the Mates fixture.
- Search.SearchPos: returns None for a move that cannot be taken back or a position that is not coherent. Playing.SearchPosSome proves None never arises from a position that keeps the turn invariant.
- The TreeNode tree that constructGameTree builds (Game.java:558) is not kept. The model returns the root's value, its best move and its children's values, in the order searched.
- `Game.moveString` is left out: it is display notation. So are the Swing user interface, the Mates fixture, `getImagePath`, `Piece.toString`, `getTotalMoves` and serialization. `Pair` is a Dafny tuple.
- Unmake of a promotion forgets the record of the promoted piece when nothing refers to it (Turns.Forget). The Java object becomes garbage, and no test in the game can tell the two apart.

## Findings

| source | as written | input that shows it | evidently intended | confidence | as-written member | corrected member |
|---|---|---|---|---|---|---|
| src/game/Pawn.java:114-140 | the en passant test compares the neighbour pawn's movedTwo with totalTurns, and a new pawn's movedTwo is 0 (Pawn.java:27) | totalTurns 0 (a position set up directly, as the Mates fixture does): a White pawn on row 4, column 3 beside an unmoved Black pawn on row 4, column 4, and the two Kings. The move to row 5, column 4 is accepted as en passant | only a pawn that has just double-stepped can be taken: its marker must be a real one (at least 1, which a double step always leaves) | not executed | Rules.EnPassantBesideAsWritten, Invariant.EnPassantMarkerCollision | Rules.EnPassantBeside, Invariant.EnPassantVictimMoved |
| src/game/Game.java:241-258 | nextTurn removes the pawn from the roster and parks it in promotedPawns twice, once before the dialog and once after | any promotion through nextTurn: promotedPawns grows by two entries of the pawn, and prevTurn takes only one off | park the pawn once, as nextTurnAutoQueen does, so that prevTurn undoes the turn | not executed | TurnEffects.NextTurnParksTwice, TurnEffects.NextTurnNotUndone | TurnEffects.NextTurnParkOnce, TurnEffects.NextTurnParkOnceRoundTrip |
