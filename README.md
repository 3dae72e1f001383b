# check-mate core in Dafny

A Dafny model of the chess engine core of check-mate. It covers:

- the `Position` class of board.py: its board, side to move, castling rights, en passant square, clocks, piece counts and PGN record;
- the FEN validation, decoding and encoding of fen.py;
- the PGN text of pgn.py.

The model is split into modules that follow the program's structure:

- `Chess`: the board as eight rows of eight characters (row 0 is rank 8), the square names of `files`/`ranks` and their inverses, and the `piece_count` table and its bishop buckets by square colour. It also proves how a recount changes when one cell is written.
- `Attack`: the four attack scans of `is_attacked` as functions: rook/queen rays, bishop/queen rays, knight jumps and pawn captures. Each is characterised independently. A ray hits when its first non-empty square holds an attacker. A knight (pawn) attacks when one stands a knight's jump (a pawn's capture) away.
- `Fen`: `str.split`, `int()`, the rank validator `check_rank`, the field validators, `get_position`, `get_turn`, `get_en_passant` and `get_fen`. It proves the round trips between decoding and encoding, and what each validator accepts in terms of the decoded board.
- `Rules`: specification functions for the move generators (`LegalMoves` and its parts), for `make_move` (`Apply`, stage by stage), for `insufficient_material` and for `is_end_of_game`. It holds the lemmas about them: counts kept in step with the board, kings kept, castling rights only lost, and the precedence of end statuses. For `make_move` as evidently intended (`ApplyCorrected`, see Findings) it proves that agreeing counts and castling rights backed by king and rook are an invariant. It also proves what a line accepted by the structural checks of `check_fen` gives the constructor.
- `Legality`: what the move lists promise. Every listed move starts on a piece of the side to move. Every move except castling passed the trial of `make_check_and_add_move`.
- `Pgn`: the header of `set_up_pgn` and the move text `update_pgn` appends, with its lemmas.
- `Board`: the class `Position`, with the fields the source updates in place. Every method is an imperative Dafny method (loops over the board, an appended `moves` list, save and restore of the board in a trial), proved equal to the function of `Rules`, `Attack` or `Fen` that specifies it.
- `PgnWriter`: `update_pgn`, a method that appends to a `Position`'s `pgn` field.
- `FenCheck`: `check_fen`. Its last test builds a `Position`, so it sits above `Board`.

A move is a pair of squares `(x, y)`, x being the file (0 is a) and y the row (0 is rank 8). White is `true`. The status codes of error.py are a datatype.

## Model

| member | source | states |
|---|---|---|
| Chess.FileName | board.py:32-42 | a file index is named by a letter a-h that indexes back to it |
| Chess.RankName | board.py:32-42 | a row index is named by a digit 1-8 that indexes back to it (row 0 is rank 8) |
| Chess.CountBoardWrite | board.py:200-217 | writing one cell changes the recount under a key by the old and new cell's buckets only |
| Chess.CountsAfterWrite | board.py:200-217 | counts adjusted for the cell left and entered still agree with the board after a write |
| Attack.RayHitsIff | board.py:340-366 | a ray scan hits exactly when some square holds an attacker and every square before it is empty or off the board |
| Attack.KnightAttackMeaning | board.py:405-432 | the knight scan is true exactly when an enemy knight stands a knight's jump away |
| Attack.KnightHitsCover | board.py:422-430 | the sixteen (i, j) pairs of the loops, those with sizes that differ, reach exactly the knight squares |
| Attack.PawnAttackMeaning | board.py:434-460 | the pawn scan is true exactly when an enemy pawn stands one file aside, one row towards its own side |
| Fen.Split | fen.py:30-35 | `str.split` gives at least one part and no part holds the separator |
| Fen.JoinSplit | fen.py:30-35 | joining the parts of a split with the separator gives the string back |
| Fen.SplitJoin | fen.py:30-35 | splitting a join of separator-free parts gives the parts back |
| Fen.ParseIntOfString | fen.py:251-271 | a clock written with `str` parses back to the same integer |
| Fen.CheckMovesSpec | fen.py:251-271 | the clocks are accepted exactly when the halfmove field is a non-negative integer and the fullmove field is a positive one |
| Fen.CheckRank | fen.py:86-121 | a rank is accepted exactly when no two digits touch, every character is a digit or a piece letter and it describes eight cells; the king counts rise by the kings in the scanned part |
| Fen.DigitsSeparated | fen.py:96-100 | the first loop accepts exactly the ranks with no digit directly before another |
| Fen.ItemCount | fen.py:112-119 | the cell count is one per letter plus each digit's value |
| Fen.RankWidthIsLength | fen.py:112-119 | the width `check_rank` computes is the length of the decoded row |
| Fen.DecodeRank | fen.py:287-312 | one rank string decodes to its run-length expansion, each piece counted under its bucket |
| Fen.DecodeItem | fen.py:290-310 | a letter adds one cell and one count, a digit that many empty cells |
| Fen.GetPosition | fen.py:274-313 | the board is the decoded ranks, and the caller's counts rise by exactly the recount of that board |
| Fen.RankText | fen.py:361-375 | a row is written as its run-length encoding |
| Fen.BoardText | fen.py:359-376 | the board is written as the encoded rows separated by '/' |
| Fen.CastlingField | fen.py:385-403 | the castling field lists the letters of the rights held in KQkq order, or '-' when none is |
| Fen.GetFen | fen.py:345-423 | the FEN text is board, turn, castling, en passant and the two clocks separated by spaces |
| Fen.EncodeExpand | fen.py:361-375 | a canonical rank string is reproduced by encoding its decoded row |
| Fen.BoardRoundTrip | fen.py:274-313 | encoding the decoded board gives the canonical board field back |
| Fen.CastlingOptionsRoundTrip | fen.py:8-17 | every castling token of the table is written back unchanged by `get_fen` |
| Fen.EnPassantRoundTrip | fen.py:329-342 | a well formed en passant field decodes and encodes back to itself |
| Fen.FenRoundTrip | fen.py:274-423 | a canonical line the checks accept is reproduced exactly by `get_fen` from the decoded values |
| Fen.KingPlace | fen.py:137-146 | where `check_kings` places a king is a rank string holding that letter, at the letter's index in the string |
| Fen.CastlingLetterMeaning | fen.py:218-246 | one castling letter passes exactly when the first king of that colour on its home row stands on file e and that side's rook stands in the corner |
| Fen.CheckCastlingMeaning | fen.py:202-248 | a castling token is accepted exactly when it is one of the sixteen and the board supports every right it names |
| Fen.PawnScanMeaning | fen.py:181-193 | the en passant scan succeeds exactly when the decoded cell at the file holds the pawn |
| Fen.CheckEnPassantMeaning | fen.py:157-199 | the en passant field is accepted exactly when it is '-' or a square on rank 3 (6) with a white (black) pawn one row towards the centre |
| Fen.CheckKingsMissesTouchingKings | fen.py:137-154 | as written, a line whose kings touch on g7 and h8 is accepted, because the white king's string index is 6 |
| Fen.CheckKingsRejectsDistantKings | fen.py:137-154 | as written, a line whose kings are six files apart is rejected, because both string indices are 1 |
| Fen.KingSquareByFile | fen.py:137-146 | with one king of a colour, the file-based place is the only square of the decoded board holding it |
| Fen.CheckKingsByFileMeaning | fen.py:124-154 | the corrected check rejects a board with one king of each colour exactly when the kings touch |
| Rules.KingCoordinates | board.py:107-128 | the king's square holds the king of the side asked, or is (-1, -1) when there is none |
| Rules.KingFound | board.py:107-128 | a king on the board is found |
| Rules.LocateFindsAll | board.py:609-618 | a square is listed exactly when it is on the board and holds the letter searched for: no piece is missed and nothing else is listed |
| Rules.Apply | board.py:183-284 | after a move the board is well formed, four castling rights remain and the count table keeps its keys |
| Rules.ApplyPlacesPiece | board.py:195-198 | the start square is emptied and the destination holds the moved piece, or the promotion choice for a pawn reaching its last row |
| Rules.ApplyCastling | board.py:230-245 | castling leaves the king on g (c) and the rook on f (d), corner and start emptied |
| Rules.ApplyRights | board.py:219-229 | rights are only ever lost: a move from e1 (e8) loses both of that side's, whatever the piece, a move from a corner loses that corner's, a move from any other square none |
| Rules.ApplyEnPassant | board.py:247-254 | an en passant capture empties the square behind the destination and lowers the other side's pawn count by one |
| Rules.ApplyEnPassantTarget | board.py:256-265 | a target is set exactly after a pawn's double step from its home row, on the square crossed |
| Rules.ApplyClocks | board.py:266-284 | the halfmove clock resets after a pawn move or a capture and rises otherwise; the move number rises after black's move; the turn passes |
| Rules.MoveCounts | board.py:195-217 | moving a piece and counting its capture keeps the counts in agreement with the board |
| Rules.RookCounts | board.py:230-245 | the rook move of castling keeps the counts in agreement with the board |
| Rules.RemovePawnCounts | board.py:247-254 | removing the pawn taken en passant and lowering its count keeps agreement |
| Rules.PromotedCounts | board.py:830-846 | a promotion keeps the counts in agreement with the board |
| Rules.PromotedFrame | board.py:811-832 | a promotion changes no cell except a pawn of the side to move |
| Rules.ApplyKeepsCounts | board.py:183-284 | a move of the kind the generators list keeps `piece_count` equal to a recount of the board, for captures, en passant and promotion, and for castling when every right held is backed by its king and rook on the board |
| Rules.ApplyKeepsKings | board.py:183-284 | under the same conditions, a move that does not capture a king keeps the number of kings of each colour on the board |
| Rules.CornerCaptureKeepsRight | board.py:219-229 | as written, capturing the rook on h1 keeps the white king side right although no rook backs it any more |
| Rules.CastlingAfterCornerCaptureMiscounts | board.py:195-245 | as written, castling king side with no white rook on h1 leaves one more white rook on the board than `piece_count` holds |
| Rules.ApplyCorrectedKeepsRightsBacked | board.py:219-245 | with rights also cleared by the square a move lands on, every right left held is still backed by its king and rook |
| Rules.ApplyCorrectedKeepsCounts | board.py:183-284 | with that correction, counts agreeing with the board and backed rights are an invariant of every move the generators can list |
| Rules.KingAgainstKing | board.py:984-986 | a bare king against a bare king is a draw by material |
| Rules.MaterialDrawMeaning | board.py:976-1030 | with counts that are not negative, the material is a draw exactly when there is one king each, no queen, rook or pawn, at most one knight and then no bishop, and every bishop on one square colour |
| Rules.EndStatusPrecedence | board.py:899-935 | checkmate overrides stalemate, which overrides insufficient material, then the fifty-move rule, then threefold repetition |
| Rules.Recount | board.py:56-78 | the counts recomputed from a board agree with it on every key |
| Rules.RecountUnique | fen.py:274-313 | counts agreeing with a board on every key are its recount |
| Rules.PrecheckShape | fen.py:20-75 | a line passing the structural checks has six fields, eight decodable ranks, a known castling token, a well formed en passant field, valid clocks, and a board both sides can generate moves on |
| Rules.PrecheckKings | fen.py:124-154 | on a line passing the structural checks and the corrected king test, the two kings do not touch |
| Rules.StartGamePlayable | board.py:56-78 | the game started from an accepted line has one king each, no pawn on a last row, counts agreeing with the board and valid clocks |
| Rules.StartKingsApart | board.py:56-78 | in the game started from a line that also passes the corrected king test, the king to move does not touch the other king |
| Rules.StartGameRoundTrip | board.py:56-78 | `current_fen` of the started game is the line itself when the line is canonical |
| Rules.PositionFields | board.py:80-94 | the first four fields of a canonical accepted line are what `get_fen` writes for board, turn, castling and en passant |
| Rules.SameFieldsSamePosition | board.py:80-94 | lines agreeing on their first four fields start equal positions |
| Rules.SamePositionIffSameFields | board.py:80-94 | two games from canonical accepted lines are equal exactly when the lines agree on board, turn, castling and en passant, whatever their clocks |
| Legality.TriedSound | board.py:937-974 | a move a trial keeps leaves the mover's king on the board, not attacked and not next to the other king |
| Legality.SliderMovesSound | board.py:547-594 | every queen, bishop and rook move listed starts on an own piece, lands on no own piece and passed its trial |
| Legality.KnightMovesSound | board.py:596-639 | every knight move listed starts on an own knight, lands on no own piece and passed its trial |
| Legality.CastlingMoves | board.py:512-545 | castling moves go from e1 (e8) to g1 or c1 (g8 or c8) |
| Legality.CastleShortNeedsRight | board.py:513-520 | king side castling is listed only as the king's step to g with the right held and f and g empty |
| Legality.CastleLongNeedsRight | board.py:522-528 | queen side castling is listed only as the king's step to c with the right held and b, c and d empty |
| Legality.KingMovesSound | board.py:481-545 | every king move listed passed its trial or is a castling move of the king from its home square |
| Legality.PawnMovesSound | board.py:641-683 | every pawn move listed, en passant included, starts on an own pawn and passed its trial |
| Legality.LegalMovesSound | board.py:462-479 | every move `get_legal_moves` lists starts on a piece of the side to move and, castling apart, leaves its king on the board, not attacked and not next to the other king |
| Pgn.SplitLines | pgn.py:5-15 | newline-terminated lines split back into the lines and an empty tail |
| Pgn.HeaderReadBack | pgn.py:5-15 | the header reads back as seven tag pairs ending with `[Result "*"]`, then an empty line |
| Pgn.MoveNumberMeaning | pgn.py:24-25 | a move number is written exactly before white's move and parses back as the move count |
| Pgn.NonKingMoveText | pgn.py:18-49 | a move of anything but a king adds only the move number |
| Pgn.KingMoveText | pgn.py:43-49 | a king move that is not castling adds the number and the king token |
| Pgn.CastlingText | pgn.py:33-49 | castling adds the castling mark, and for white the king token as well |
| Pgn.KingTokenNamesSquare | pgn.py:43-49 | the king token ends with the destination's file and rank, which index back to it, and holds 'x' exactly on a capture |
| PgnWriter.UpdatePgn | pgn.py:18-49 | only the move record changes, and it grows by exactly the move's text |
| Board.Position.ReadFen | board.py:56-78 | the values read from an accepted line are those of the game it starts, and the FEN text is rebuilt from them |
| Board.Position.DecodePosition | board.py:56-78 | decoding with zero counts gives the board and its recount |
| Board.Position.constructor | board.py:56-78 | a new position holds the game the accepted line starts |
| Board.Position.Equals | board.py:80-94 | equal exactly when the other is a position with the same board, turn, castling rights and en passant square |
| Board.Position.NotEquals | board.py:96-105 | the negation of equality |
| Board.Position.GetKingCoordinates | board.py:107-128 | the square found holds the king of the side to move |
| Board.Position.AreKingsApart | board.py:160-181 | true exactly when no neighbour of the square holds the other king |
| Board.Position.LookAlong | board.py:340-366 | one look along a ray hits only on an attacker before any blocker, and otherwise records whether the ray is blocked |
| Board.Position.HorizontalOrVerticalAttack | board.py:307-367 | true exactly when an enemy rook or queen sees the square along a row or column |
| Board.Position.DiagonalRay | board.py:390-400 | one diagonal hits exactly when its first piece is an enemy queen or bishop |
| Board.Position.DiagonalAttackScan | board.py:369-403 | true exactly when an enemy queen or bishop sees the square along a diagonal |
| Board.Position.KnightAttackScan | board.py:405-432 | true exactly when an enemy knight stands a knight's jump away |
| Board.Position.PawnAttackScan | board.py:434-460 | true exactly when an enemy pawn attacks the square |
| Board.Position.IsAttacked | board.py:286-305 | true exactly when any of the four scans finds an attacker |
| Board.Position.MakeCheckAndAddMove | board.py:937-974 | the board is left as it was and the move is kept exactly when its trial passes |
| Board.Position.FindPieces | board.py:609-618 | the squares of a letter in row-major order |
| Board.Position.FindSliders | board.py:564-579 | the queens, bishops and rooks of the side to move, each in row-major order |
| Board.Position.GetMoves | board.py:752-790 | an empty or enemy square is tried, and the ray stops at an enemy or own piece |
| Board.Position.ScanRay | board.py:685-750 | one ray adds the moves of its range scan |
| Board.Position.GetVerticalRange | board.py:685-705 | the vertical range moves, up then down |
| Board.Position.GetHorizontalRange | board.py:707-727 | the horizontal range moves, towards file a then towards file h |
| Board.Position.GetDiagonalRange | board.py:729-750 | the four diagonal range moves |
| Board.Position.AddRange | board.py:581-594 | the ranges one queen, bishop or rook scans |
| Board.Position.AddRanges | board.py:581-594 | the ranges of a list of pieces, in list order |
| Board.Position.GetQueenBishopRookMoves | board.py:547-594 | queen moves, then bishop moves, then rook moves; the board is left as it was |
| Board.Position.TryJump | board.py:626-639 | a jump onto an empty or enemy square is tried |
| Board.Position.AddJumpRow | board.py:625-639 | the jumps for one file offset |
| Board.Position.AddJumps | board.py:621-639 | all jumps of one knight |
| Board.Position.GetKnightMoves | board.py:596-639 | the jumps of every knight of the side to move; the board is left as it was |
| Board.Position.TryKingStep | board.py:492-510 | one neighbour step of the king |
| Board.Position.TryKingTarget | board.py:497-510 | a step is tried exactly when the square is empty or holds an enemy piece other than the king |
| Board.Position.AddKingRow | board.py:491-510 | the steps for one file offset |
| Board.Position.AddKingRows | board.py:490-510 | all eight neighbour steps |
| Board.Position.CastlingSafe | board.py:513-545 | true exactly when neither crossed square nor the king's square is attacked |
| Board.Position.TryCastleShort | board.py:513-520 | king side castling is listed exactly when the right is held, f and g are empty and no tested square is attacked |
| Board.Position.TryCastleLong | board.py:522-528 | queen side castling is listed exactly when the right is held, b, c and d are empty and no tested square is attacked |
| Board.Position.GetKingMoves | board.py:481-545 | neighbour steps, then castling from the home square; the board is left as it was |
| Board.Position.TryPawnAdvance | board.py:863-867 | the single step is tried exactly when the square ahead is empty |
| Board.Position.TryPawnDouble | board.py:869-871 | the double step is tried from the start row exactly when both squares ahead are empty |
| Board.Position.TryPawnCapture | board.py:873-887 | a capture is tried exactly when the diagonal square holds an enemy piece |
| Board.Position.TryEnPassant | board.py:889-897 | an en passant capture is tried exactly when the target is diagonally ahead and the pawn stands on its capture row |
| Board.Position.CheckPawnMoves | board.py:850-897 | all moves of one pawn, in the source's order |
| Board.Position.PawnMovesFrom | board.py:666-683 | the rows of one pawn's moves for the colour to move |
| Board.Position.GetPawnMoves | board.py:641-683 | the moves of every pawn of the side to move; the board is left as it was |
| Board.Position.GetLegalMoves | board.py:462-479 | the king, slider, knight and pawn moves in that order, each kept only after its trial; the board is left as it was |
| Board.Position.CountPromotedPiece | board.py:831-846 | the chosen piece's count rises by one, a bishop's under its square colour |
| Board.Position.CheckPromotions | board.py:792-848 | the first pawn on its last row becomes the choice, the counts move from pawn to choice and '=' and the letter are recorded |
| Board.Position.CountCapture | board.py:200-217 | the captured piece's count drops by one, a bishop's under its square colour |
| Board.Position.UpdateCastling | board.py:219-245 | the rights lost by the move and the rook moved when the king castles |
| Board.Position.RemoveEnPassantPawn | board.py:247-254 | the pawn taken en passant is removed and its count lowered |
| Board.Position.MovePiece | board.py:183-254 | the piece moves and the capture, rights, rook and en passant pawn are handled |
| Board.Position.UpdateClocks | board.py:256-273 | the en passant target and the two clocks as the rules set them |
| Board.Position.PlayMove | board.py:183-282 | the new state is the move applied to the old one |
| Board.Position.MakeMove | board.py:183-284 | the new state is the move applied to the old one and `current_fen` is its FEN text |
| Board.Position.InsufficientMaterial | board.py:976-1030 | true exactly when the material is a draw |
| Board.Position.RepetitionStatus | board.py:909-912 | threefold repetition exactly when some count reaches three |
| Board.Position.DrawStatus | board.py:907-920 | insufficient material over the fifty-move rule over repetition |
| Board.Position.MateTest | board.py:922-929 | whether the king is in check and whether no legal move exists; the position is left as it was |
| Board.Position.StalemateStatus | board.py:922-925 | stalemate exactly when not in check and without a legal move |
| Board.Position.CheckmateStatus | board.py:927-933 | in check without a legal move, the side to move has lost |
| Board.Position.MateStatus | board.py:922-933 | checkmate over stalemate over the status before |
| Board.Position.IsEndOfGame | board.py:899-935 | the end status of the game; the position is left as it was |
| FenCheck.CheckRanks | fen.py:44-51 | every rank accepted, and then the king counts are the kings on the board |
| FenCheck.KingsSeenAccepted | fen.py:86-121 | for an accepted rank, the kings counted are all its kings |
| FenCheck.Precheck | fen.py:29-75 | the structural verdict, tests in the source's order |
| FenCheck.CheckFen | fen.py:20-83 | the structural verdict, then invalid when the side that has just moved is left in check |
| FenCheck.AcceptedFenIsPlayable | fen.py:20-83 | an accepted line starts a game with a king of each colour, the side that has just moved not in check, and counts agreeing with the board |
| FenCheck.AcceptedFenKingsApart | fen.py:20-83 | an accepted line that also passes the corrected king test starts a game whose king to move does not touch the other king |
| FenCheck.VerdictCodes | fen.py:39-42 | the codes returned are 0, 1 (the `True` of a pawn on a back rank) or 7, and only 0 lets a game start |

## Left out

- Printing: `display` (board.py:130-158), the messages of `is_end_of_game` and the interactive game loop of main.py are output only.
- ai.py, and `add_results` of pgn.py (pgn.py:75), are not part of this model.
- The status codes of error.py are the datatype `Status`; only the codes the core returns are used.
- Board.Position.CheckPromotions: the player's choice (read with `input`, or drawn with `random` for the computer) is a parameter restricted to the four pieces offered.
- Board.Position.constructor: the `white` and `black` arguments only name the players, so they are not modelled. The constructor requires a line that passed the structural checks of `check_fen` as written, as both callers in the source ensure (fen.py:78 after those checks, main.py:101-106 after `check_fen`).
- Board.Position.MakeCheckAndAddMove: the copy made with `copy.deepcopy` is a saved board value that is written back. The method requires that the trial's squares are on the board. When the king is missing, the source's (-1, -1) becomes a negative Python index, which the model does not follow.
- Board.Position.IsEndOfGame: the `(Position, count)` list is given as the counts alone, since only the counts are read.
- The turn is the integer `WHITE` (1) or `BLACK` (0) in the source (board.py:9-17), toggled with `1 - turn`. The model holds it as a `bool`, `true` for white, and writes the toggle as negation.
- `CASTLING_OPTIONS` lists are copied into the game, not aliased. The source shares one list per token between games, and `make_move` writes into it.
- Loops whose bodies update the moves list are factored into helper methods (one row, one offset, one piece), each proved against the same specification function.
- Board.Position.Equals: Python's `isinstance` test becomes a `null` test on a `Position?`.
- `str.isdigit` and `int()` are modelled on ASCII digits. `int()` also accepts surrounding whitespace, a sign and single underscores between digits, as Python does. Unicode digits are not modelled.
- Legality.LegalMovesSound: castling moves are characterised by their shape only. Their attack tests are stated by `TryCastleShort`, `TryCastleLong` and `CastlingSafe`, not restated in the soundness lemma.
- The queen and bishop scans of `diagonal_attack` and the range scans are characterised through `Attack.RayHitsIff` and the range functions. There is no separate lemma per direction.
- Rules.ApplyRights: as in the source, capturing a rook on its corner does not clear the captured side's castling right. Only the squares a piece leaves are looked at. See Findings; `Board.Position` keeps this as-written behaviour.
- Rules.ApplyKeepsCounts: the counts are kept only when every castling right held is backed by its king and rook. The as-written `make_move` does not preserve that backing (`Rules.CornerCaptureKeepsRight`), and then castling miscounts (`Rules.CastlingAfterCornerCaptureMiscounts`). The invariant is proved for the corrected `Rules.ApplyCorrected`.
- Rules.ApplyKeepsKings: proved under the same backing requirement. As written, castling after the corner was captured erases whatever piece stands on the corner, a king included, because `is_attacked` has no king scan.
- Rules.ApplyCorrectedKeepsCounts: the move conditions are those `CountSafe` names. The model proves the castling clause of them from the generator (`Legality.CastleShortNeedsRight`, `Legality.CastleLongNeedsRight`), not the bishop-colour and en passant clauses.
- Fen.CheckRank: as in the source, the digit '0' is accepted and adds no cells.
- FenCheck.Precheck, FenCheck.CheckFen and the constructor run `check_kings` as written (`Fen.CheckKings`), so they accept lines whose kings touch, such as `7k/BBBBBBK1/8/8/8/8/8/8 w - - 0 1`.
- Rules.PrecheckKings, Rules.StartKingsApart and FenCheck.AcceptedFenKingsApart: the kings-apart promise holds only for lines that also pass the corrected, file-based king test (`Fen.KingsApartByFile`; see Findings).
- FenCheck.AcceptedFenIsPlayable: it no longer promises that the kings are apart, because as written `check_fen` accepts touching kings. That promise is in FenCheck.AcceptedFenKingsApart under the corrected test.

## Findings

| source | as written | input that shows it | evidently intended | confidence | as-written member | corrected member |
|---|---|---|---|---|---|---|
| fen.py:137-154 | `check_kings` takes the king's index in the rank string as its file, so digits before the king shift it | `7k/BBBBBBK1/8/8/8/8/8/8 w - - 0 1` (kings on g7 and h8 accepted); `7k/1K6/8/8/8/8/8/8 w - - 0 1` (kings six files apart rejected) | the file is the cell count before the king, so the check rejects exactly the boards whose kings touch | not executed | Fen.CheckKingsMissesTouchingKings, Fen.CheckKingsRejectsDistantKings | Fen.CheckKingsByFileMeaning |
| board.py:219-245 | `make_move` clears castling rights only by the square a piece leaves, so capturing a rook on its corner keeps the right; castling later writes a rook the counts never gain and erases whatever stands on the corner | 1.g4 b6 2.Bh3 Bb7 3.e3 a6 4.Ne2 Bxh1 5.O-O (the bishop on h1 is erased but still counted, and an uncounted rook appears on f1) | a move onto a rook corner (or a king's home square) also clears the right that square backs, so counts and rights stay consistent | not executed | Rules.CornerCaptureKeepsRight, Rules.CastlingAfterCornerCaptureMiscounts | Rules.ApplyCorrectedKeepsCounts |
