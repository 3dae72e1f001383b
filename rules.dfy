/** The game logic of board.py as functions over values: where a king
    stands, the trial a candidate move must pass, the lists the move
    generator produces, the effect of `make_move` and the end-of-game
    decision. The class `Position` (board.dfy) is proved against these. */
module Rules {
  import opened Chess
  import opened Attack
  import Fen
  import Pgn

  /** The state a `Position` carries between moves. */
  datatype Game = Game(pos: Board, turn: bool, castling: seq<bool>, enPassant: Option<Square>,
                       halfmove: int, fullmove: int, pieceCount: map<string, int>, pgn: string)

  // ---------------------------------------------------------------------
  // Sides

  function KingOf(white: bool): char { if white then 'K' else 'k' }
  function PawnOf(white: bool): char { if white then 'P' else 'p' }

  /** A letter of the side `white` (upper case for white). */
  predicate Own(white: bool, c: char) { if white then IsUpper(c) else IsLower(c) }

  /** A letter of the other side. */
  predicate Enemy(white: bool, c: char) { if white then IsLower(c) else IsUpper(c) }

  /** The row a pawn of `white` promotes on. */
  function LastRow(white: bool): int { if white then 0 else 7 }

  /** The row step of a pawn of `white`. */
  function Forward(white: bool): int { if white then -1 else 1 }

  /** The square of the pawn an en passant capture onto `d` removes. */
  function Behind(white: bool, d: Square): Square {
    Square(d.x, d.y - Forward(white))
  }

  // ---------------------------------------------------------------------
  // get_king_coordinates, kings_apart

  /** `get_king_coordinates`: the square `check_kings` would report for the
      king of `white` (last row holding it, first index in that row, first
      row equal to that row), or (-1, -1) when there is none. */
  function KingCoordinates(b: Board, white: bool): (s: Square)
    requires IsBoard(b)
    ensures s == Square(-1, -1) || (OnBoard(s) && At(b, s) == KingOf(white))
  {
    match Fen.KingPlace(b, |b|, KingOf(white))
    case None => Square(-1, -1)
    case Some(p) => Square(p.0, p.1)
  }

  /** The neighbour of `s` at offset (i, j) holds the king of the other side. */
  predicate EnemyKingAt(b: Board, white: bool, s: Square, i: int, j: int)
    requires IsBoard(b)
  {
    (i != 0 || j != 0) && InBounds(s.x + i, s.y + j) && b[s.y + j][s.x + i] == KingOf(!white)
  }

  /** `kings_apart`: no square around `s` holds the king of the other side. */
  predicate KingsApart(b: Board, white: bool, s: Square)
    requires IsBoard(b)
  {
    !exists i, j | -1 <= i <= 1 && -1 <= j <= 1 :: EnemyKingAt(b, white, s, i, j)
  }

  // ---------------------------------------------------------------------
  // make_check_and_add_move

  /** The squares a trial touches are on the board. */
  predicate TrialFits(b: Board, white: bool, m: Move, ep: bool) {
    IsBoard(b) && OnBoard(m.orig) && OnBoard(m.dest) && (ep ==> OnBoard(Behind(white, m.dest)))
  }

  /** The board `make_check_and_add_move` tests: the piece moved, and the
      pawn behind the destination removed for an en passant capture. */
  function TrialBoard(b: Board, white: bool, m: Move, ep: bool): (t: Board)
    requires TrialFits(b, white, m, ep)
    ensures IsBoard(t)
  {
    var moved := Put(Put(b, m.orig, ' '), m.dest, At(b, m.orig));
    if ep then Put(moved, Behind(white, m.dest), ' ') else moved
  }

  /** The trial passes: on the trial board the mover's king stands on the
      board, is not attacked and does not touch the other king. */
  predicate TrialOk(b: Board, white: bool, m: Move, ep: bool)
    requires TrialFits(b, white, m, ep)
  {
    var t := TrialBoard(b, white, m, ep);
    var k := KingCoordinates(t, white);
    OnBoard(k) && !Attacked(t, white, k) && KingsApart(t, white, k)
  }

  /** What one call of `make_check_and_add_move` appends. */
  function Tried(b: Board, white: bool, m: Move, ep: bool): seq<Move>
    requires TrialFits(b, white, m, ep)
  {
    if TrialOk(b, white, m, ep) then [m] else []
  }

  // ---------------------------------------------------------------------
  // Piece lists (the row-major scans of the get_*_moves methods)

  /** The squares of row `y` among the cells `row` that hold `c`, left to right. */
  function LocateIn(row: seq<char>, y: int, c: char): (r: seq<Square>)
    ensures forall i :: 0 <= i < |r| ==> r[i].y == y && 0 <= r[i].x < |row| && row[r[i].x] == c
    decreases |row|
  {
    if |row| == 0 then []
    else LocateIn(row[..|row| - 1], y, c) + (if row[|row| - 1] == c then [Square(|row| - 1, y)] else [])
  }

  /** The squares of the rows `rows` that hold `c`, in row-major order. */
  function LocateRows(rows: seq<seq<char>>, c: char): (r: seq<Square>)
    ensures forall i :: 0 <= i < |r| ==> 0 <= r[i].y < |rows| && 0 <= r[i].x < |rows[r[i].y]| && rows[r[i].y][r[i].x] == c
    decreases |rows|
  {
    if |rows| == 0 then []
    else
      var n := |rows| - 1;
      var front := LocateRows(rows[..n], c);
      assert forall i :: 0 <= i < |front| ==> rows[..n][front[i].y] == rows[front[i].y];
      front + LocateIn(rows[n], n, c)
  }

  /** Every square listed for `c` is on the board and holds `c`. */
  predicate AllHold(b: Board, ss: seq<Square>, c: char)
    requires IsBoard(b)
  {
    forall i :: 0 <= i < |ss| ==> OnBoard(ss[i]) && At(b, ss[i]) == c
  }

  function Locate(b: Board, c: char): (r: seq<Square>)
    requires IsBoard(b)
    ensures AllHold(b, r, c)
  {
    LocateRows(b, c)
  }

  lemma {:induction false} LocateInComplete(row: seq<char>, y: int, c: char, x: int)
    requires 0 <= x < |row| && row[x] == c
    ensures Square(x, y) in LocateIn(row, y, c)
    decreases |row|
  {
    var n := |row| - 1;
    if x < n {
      assert row[..n][x] == row[x];
      LocateInComplete(row[..n], y, c, x);
    }
  }

  lemma {:induction false} LocateRowsComplete(rows: seq<seq<char>>, c: char, s: Square)
    requires 0 <= s.y < |rows| && 0 <= s.x < |rows[s.y]| && rows[s.y][s.x] == c
    ensures s in LocateRows(rows, c)
    decreases |rows|
  {
    var n := |rows| - 1;
    if s.y < n {
      assert rows[..n][s.y] == rows[s.y];
      LocateRowsComplete(rows[..n], c, s);
    } else {
      LocateInComplete(rows[n], n, c, s.x);
    }
  }

  /** A square is listed for `c` exactly when it is on the board and holds
      `c`: the scan misses no piece and lists nothing else. */
  lemma LocateFindsAll(b: Board, c: char, s: Square)
    requires IsBoard(b)
    ensures s in Locate(b, c) <==> OnBoard(s) && At(b, s) == c
  {
    if OnBoard(s) && At(b, s) == c {
      LocateRowsComplete(b, c, s);
    }
  }

  // ---------------------------------------------------------------------
  // Queens, bishops, rooks: get_moves and the three range scans

  /** One ray of a range scan from step `k` on, as `get_moves` decides it:
      an empty square is tried and the scan goes on, an enemy piece is tried
      and ends the scan, an own piece ends it, anything else is passed over. */
  function RayMoves(b: Board, white: bool, s: Square, dx: int, dy: int, k: int): seq<Move>
    requires IsBoard(b) && OnBoard(s) && 1 <= k
    decreases 8 - k
  {
    if k > 7 then []
    else
      var t := Step(s, dx, dy, k);
      if !OnBoard(t) then RayMoves(b, white, s, dx, dy, k + 1)
      else if At(b, t) == ' ' then Tried(b, white, Move(s, t), false) + RayMoves(b, white, s, dx, dy, k + 1)
      else if Enemy(white, At(b, t)) then Tried(b, white, Move(s, t), false)
      else if Own(white, At(b, t)) then []
      else RayMoves(b, white, s, dx, dy, k + 1)
  }

  /** `get_vertical_range`: up the board, then down. */
  function VerticalMoves(b: Board, white: bool, s: Square): seq<Move>
    requires IsBoard(b) && OnBoard(s)
  {
    RayMoves(b, white, s, 0, -1, 1) + RayMoves(b, white, s, 0, 1, 1)
  }

  /** `get_horizontal_range`: towards file a, then towards file h. */
  function HorizontalMoves(b: Board, white: bool, s: Square): seq<Move>
    requires IsBoard(b) && OnBoard(s)
  {
    RayMoves(b, white, s, -1, 0, 1) + RayMoves(b, white, s, 1, 0, 1)
  }

  /** `get_diagonal_range`: file step outer, row step inner. */
  function DiagonalMoves(b: Board, white: bool, s: Square): seq<Move>
    requires IsBoard(b) && OnBoard(s)
  {
    RayMoves(b, white, s, -1, -1, 1) + RayMoves(b, white, s, -1, 1, 1) +
    RayMoves(b, white, s, 1, -1, 1) + RayMoves(b, white, s, 1, 1, 1)
  }

  datatype Slider = QueenSlider | BishopSlider | RookSlider

  /** The ranges scanned for one piece of the kind `kind`. */
  function SliderRange(b: Board, white: bool, s: Square, kind: Slider): seq<Move>
    requires IsBoard(b) && OnBoard(s)
  {
    match kind
    case QueenSlider => VerticalMoves(b, white, s) + HorizontalMoves(b, white, s) + DiagonalMoves(b, white, s)
    case BishopSlider => DiagonalMoves(b, white, s)
    case RookSlider => VerticalMoves(b, white, s) + HorizontalMoves(b, white, s)
  }

  predicate AllOnBoard(ss: seq<Square>) {
    forall i :: 0 <= i < |ss| ==> OnBoard(ss[i])
  }

  /** The ranges of the pieces at `starts`, in list order. */
  function SliderRanges(b: Board, white: bool, starts: seq<Square>, kind: Slider): seq<Move>
    requires IsBoard(b) && AllOnBoard(starts)
    decreases |starts|
  {
    if |starts| == 0 then []
    else
      var n := |starts| - 1;
      SliderRanges(b, white, starts[..n], kind) + SliderRange(b, white, starts[n], kind)
  }

  function QueenLetter(white: bool): char { if white then 'Q' else 'q' }
  function BishopLetter(white: bool): char { if white then 'B' else 'b' }
  function RookLetter(white: bool): char { if white then 'R' else 'r' }
  function KnightLetter(white: bool): char { if white then 'N' else 'n' }

  /** `get_queen_bishop_rook_moves`: queens, then bishops, then rooks. */
  function SliderMoves(b: Board, white: bool): seq<Move>
    requires IsBoard(b)
  {
    SliderRanges(b, white, Locate(b, QueenLetter(white)), QueenSlider) +
    SliderRanges(b, white, Locate(b, BishopLetter(white)), BishopSlider) +
    SliderRanges(b, white, Locate(b, RookLetter(white)), RookSlider)
  }

  // ---------------------------------------------------------------------
  // Knights

  /** The offsets `get_knight_moves` draws both coordinates from. */
  const Jumps: seq<int> := [-2, -1, 1, 2]

  function Abs(n: int): nat { if n < 0 then -n else n }

  /** The knight test as written: `(turn and char.islower()) or char == ' '`,
      then `(not turn and char.isupper()) or char == ' '`. */
  predicate KnightTarget(white: bool, c: char) {
    (white && IsLower(c)) || c == ' ' || (!white && IsUpper(c))
  }

  /** One (i, j) combination of the knight loops. */
  function Jump(b: Board, white: bool, s: Square, i: int, j: int): seq<Move>
    requires IsBoard(b) && OnBoard(s)
  {
    var t := Square(s.x + i, s.y + j);
    if Abs(i) != Abs(j) && OnBoard(t) && KnightTarget(white, At(b, t)) then Tried(b, white, Move(s, t), false)
    else []
  }

  /** The inner loop: `j` over the first `n` offsets. */
  function JumpRow(b: Board, white: bool, s: Square, i: int, n: nat): seq<Move>
    requires IsBoard(b) && OnBoard(s) && n <= |Jumps|
  {
    if n == 0 then [] else JumpRow(b, white, s, i, n - 1) + Jump(b, white, s, i, Jumps[n - 1])
  }

  /** The outer loop: `i` over the first `n` offsets. */
  function JumpRows(b: Board, white: bool, s: Square, n: nat): seq<Move>
    requires IsBoard(b) && OnBoard(s) && n <= |Jumps|
  {
    if n == 0 then [] else JumpRows(b, white, s, n - 1) + JumpRow(b, white, s, Jumps[n - 1], |Jumps|)
  }

  function KnightRanges(b: Board, white: bool, starts: seq<Square>): seq<Move>
    requires IsBoard(b) && AllOnBoard(starts)
    decreases |starts|
  {
    if |starts| == 0 then []
    else
      var n := |starts| - 1;
      KnightRanges(b, white, starts[..n]) + JumpRows(b, white, starts[n], |Jumps|)
  }

  /** `get_knight_moves`. */
  function KnightMoves(b: Board, white: bool): seq<Move>
    requires IsBoard(b)
  {
    KnightRanges(b, white, Locate(b, KnightLetter(white)))
  }

  // ---------------------------------------------------------------------
  // King

  /** The offsets `get_king_moves` draws both coordinates from. */
  const KingSteps: seq<int> := [-1, 0, 1]

  /** The king test: an enemy letter or ' ', never the enemy king. */
  predicate KingTarget(white: bool, c: char) {
    (Enemy(white, c) || c == ' ') && c != KingOf(!white)
  }

  function KingStep(b: Board, white: bool, k: Square, i: int, j: int): seq<Move>
    requires IsBoard(b) && OnBoard(k)
  {
    var t := Square(k.x + i, k.y + j);
    if (i != 0 || j != 0) && OnBoard(t) && KingTarget(white, At(b, t)) then Tried(b, white, Move(k, t), false)
    else []
  }

  /** A step of the king that stays on the board, written without the
      guard on the target square. */
  lemma KingStepOnBoard(b: Board, white: bool, k: Square, i: int, j: int)
    requires IsBoard(b) && OnBoard(k) && (i != 0 || j != 0) && OnBoard(Square(k.x + i, k.y + j))
    ensures var t := Square(k.x + i, k.y + j);
      KingStep(b, white, k, i, j) == if KingTarget(white, At(b, t)) then Tried(b, white, Move(k, t), false) else []
  {
  }

  function KingRow(b: Board, white: bool, k: Square, i: int, n: nat): seq<Move>
    requires IsBoard(b) && OnBoard(k) && n <= |KingSteps|
  {
    if n == 0 then [] else KingRow(b, white, k, i, n - 1) + KingStep(b, white, k, i, KingSteps[n - 1])
  }

  function KingRows(b: Board, white: bool, k: Square, n: nat): seq<Move>
    requires IsBoard(b) && OnBoard(k) && n <= |KingSteps|
  {
    if n == 0 then [] else KingRows(b, white, k, n - 1) + KingRow(b, white, k, KingSteps[n - 1], |KingSteps|)
  }

  /** The row the king of `white` castles on. */
  function HomeRow(white: bool): int { if white then 7 else 0 }

  /** King side castling as `get_king_moves` checks it for a king on `k`,
      its home square: the right is held, f and g on the king's row are
      empty, and neither they nor the king's square is attacked. No trial
      is made. */
  function CastleShort(b: Board, white: bool, castling: seq<bool>, k: Square): seq<Move>
    requires IsBoard(b) && |castling| == 4 && OnBoard(k)
  {
    var y := k.y;
    if castling[if white then 0 else 2] && b[y][5] == ' ' && b[y][6] == ' ' &&
       !Attacked(b, white, Square(5, y)) && !Attacked(b, white, Square(6, y)) && !Attacked(b, white, k)
    then [Move(Square(4, y), Square(6, y))]
    else []
  }

  /** Queen side castling: the right is held, b, c and d are empty, c and d
      and the king's square are not attacked. */
  function CastleLong(b: Board, white: bool, castling: seq<bool>, k: Square): seq<Move>
    requires IsBoard(b) && |castling| == 4 && OnBoard(k)
  {
    var y := k.y;
    if castling[if white then 1 else 3] && b[y][1] == ' ' && b[y][2] == ' ' && b[y][3] == ' ' &&
       !Attacked(b, white, Square(2, y)) && !Attacked(b, white, Square(3, y)) && !Attacked(b, white, k)
    then [Move(Square(4, y), Square(2, y))]
    else []
  }

  /** `get_king_moves`: the eight neighbours (file step outer), then castling
      when the king stands on e1 (white) or e8 (black). */
  function KingMoves(b: Board, white: bool, castling: seq<bool>): seq<Move>
    requires IsBoard(b) && |castling| == 4 && OnBoard(KingCoordinates(b, white))
  {
    var k := KingCoordinates(b, white);
    KingRows(b, white, k, |KingSteps|) +
    (if k == Square(4, HomeRow(white)) then CastleShort(b, white, castling, k) + CastleLong(b, white, castling, k)
     else [])
  }

  // ---------------------------------------------------------------------
  // Pawns: check_pawn_moves

  /** No pawn of `white` stands on the row it promotes on (the generator's
      stated assumption: one step forward stays on the board). */
  predicate PawnsCanAdvance(b: Board, white: bool)
    requires IsBoard(b)
  {
    forall x :: 0 <= x < 8 ==> b[LastRow(white)][x] != PawnOf(white)
  }

  /** The start row of a pawn of `white`, the row it crosses and the row a
      double step reaches, and the row an en passant capture starts from. */
  function PawnHome(white: bool): int { if white then 6 else 1 }
  function PawnMiddle(white: bool): int { if white then 5 else 2 }
  function PawnDouble(white: bool): int { if white then 4 else 3 }
  function PawnCaptureRow(white: bool): int { if white then 3 else 4 }

  /** The en passant part of `check_pawn_moves`: the left neighbour file is
      tried first, the right one only if the left does not match. */
  function EnPassantMoves(b: Board, white: bool, ep: Option<Square>, s: Square): seq<Move>
    requires IsBoard(b) && OnBoard(s)
  {
    match ep
    case None => []
    case Some(e) =>
      var yNew := s.y + Forward(white);
      if 0 <= s.x - 1 <= 7 && s.x - 1 == e.x && yNew == e.y && s.y == PawnCaptureRow(white) then
        Tried(b, white, Move(s, e), true)
      else if 0 <= s.x + 1 <= 7 && s.x + 1 == e.x && yNew == e.y && s.y == PawnCaptureRow(white) then
        Tried(b, white, Move(s, e), true)
      else []
  }

  /** The single step: the square ahead is empty. */
  function PawnAdvance(b: Board, white: bool, s: Square): seq<Move>
    requires IsBoard(b) && OnBoard(s) && 0 <= s.y + Forward(white) <= 7
  {
    var yNew := s.y + Forward(white);
    if b[yNew][s.x] == ' ' then Tried(b, white, Move(s, Square(s.x, yNew)), false) else []
  }

  /** The double step from the start row: both squares ahead are empty. */
  function PawnDoubleStep(b: Board, white: bool, s: Square): seq<Move>
    requires IsBoard(b) && OnBoard(s)
  {
    if s.y == PawnHome(white) && b[PawnMiddle(white)][s.x] == ' ' && b[PawnDouble(white)][s.x] == ' '
    then Tried(b, white, Move(s, Square(s.x, PawnDouble(white))), false) else []
  }

  /** The capture towards file `s.x + dx`: an enemy piece diagonally ahead. */
  function PawnCapture(b: Board, white: bool, s: Square, dx: int): seq<Move>
    requires IsBoard(b) && OnBoard(s) && 0 <= s.y + Forward(white) <= 7
  {
    var yNew := s.y + Forward(white);
    if 0 <= s.x + dx <= 7 && Enemy(white, b[yNew][s.x + dx])
    then Tried(b, white, Move(s, Square(s.x + dx, yNew)), false) else []
  }

  /** `check_pawn_moves` for the pawn at `s`: single step, double step,
      captures to the left and right, en passant. */
  function PawnMovesAt(b: Board, white: bool, ep: Option<Square>, s: Square): seq<Move>
    requires IsBoard(b) && OnBoard(s) && 0 <= s.y + Forward(white) <= 7
  {
    PawnAdvance(b, white, s) + PawnDoubleStep(b, white, s) +
    PawnCapture(b, white, s, -1) + PawnCapture(b, white, s, 1) + EnPassantMoves(b, white, ep, s)
  }

  /** Every square in `ss` is on the board, off the promotion row of `white`. */
  predicate PawnSquares(ss: seq<Square>, white: bool) {
    forall i :: 0 <= i < |ss| ==> OnBoard(ss[i]) && ss[i].y != LastRow(white)
  }

  function PawnRanges(b: Board, white: bool, ep: Option<Square>, starts: seq<Square>): seq<Move>
    requires IsBoard(b) && PawnSquares(starts, white)
    decreases |starts|
  {
    if |starts| == 0 then []
    else
      var n := |starts| - 1;
      PawnRanges(b, white, ep, starts[..n]) + PawnMovesAt(b, white, ep, starts[n])
  }

  lemma PawnsOffLastRow(b: Board, white: bool)
    requires IsBoard(b) && PawnsCanAdvance(b, white)
    ensures PawnSquares(Locate(b, PawnOf(white)), white)
  {
  }

  /** `get_pawn_moves`. */
  function PawnMoves(b: Board, white: bool, ep: Option<Square>): seq<Move>
    requires IsBoard(b) && PawnsCanAdvance(b, white)
  {
    PawnsOffLastRow(b, white);
    PawnRanges(b, white, ep, Locate(b, PawnOf(white)))
  }

  // ---------------------------------------------------------------------
  // get_legal_moves

  /** What `get_legal_moves` needs of a position: the mover's king on the
      board and none of the mover's pawns on its promotion row. */
  predicate CanGenerate(b: Board, white: bool, castling: seq<bool>)
  {
    IsBoard(b) && |castling| == 4 && OnBoard(KingCoordinates(b, white)) && PawnsCanAdvance(b, white)
  }

  /** `get_legal_moves`: king moves, then queen/bishop/rook moves, then
      knight moves, then pawn moves. */
  function LegalMoves(b: Board, white: bool, castling: seq<bool>, ep: Option<Square>): seq<Move>
    requires CanGenerate(b, white, castling)
  {
    KingMoves(b, white, castling) + SliderMoves(b, white) + KnightMoves(b, white) + PawnMoves(b, white, ep)
  }

  // ---------------------------------------------------------------------
  // make_move and check_promotions

  /** The count of `key` lowered or raised by one. */
  function Dec(counts: map<string, int>, key: string): map<string, int>
    requires key in counts
  {
    counts[key := counts[key] - 1]
  }

  function Inc(counts: map<string, int>, key: string): map<string, int>
    requires key in counts
  {
    counts[key := counts[key] + 1]
  }

  /** The counts after a capture of `endPiece` at `d`: its bucket loses one
      (a bishop's bucket by the colour of `d`); nothing when `d` was empty. */
  function Captured(counts: map<string, int>, endPiece: char, d: Square): (r: map<string, int>)
    requires CountKeys <= counts.Keys && IsPieceKey(endPiece)
    ensures r.Keys == counts.Keys
  {
    if endPiece != ' ' then (BucketIsKey(endPiece, d.x, d.y); Dec(counts, Bucket(endPiece, d.x, d.y)))
    else counts
  }

  /** The castling rights after a move from `o`: a move from a rook corner
      drops that corner's right, a move from e8 or e1 drops both of that
      side's rights. Order: white king side, white queen side, black king
      side, black queen side. */
  function RightsAfter(castling: seq<bool>, o: Square): (r: seq<bool>)
    requires |castling| == 4
    ensures |r| == 4
  {
    if o == Square(0, 0) then castling[3 := false]
    else if o == Square(7, 0) then castling[2 := false]
    else if o == Square(0, 7) then castling[1 := false]
    else if o == Square(7, 7) then castling[0 := false]
    else if o == Square(4, 0) then castling[2 := false][3 := false]
    else if o == Square(4, 7) then castling[0 := false][1 := false]
    else castling
  }

  /** A king move e8-g8, e8-c8 (black) or e1-g1, e1-c1 (white) of the king
      itself: the moves `make_move` completes by moving a rook. */
  predicate IsCastling(piece: char, o: Square, d: Square) {
    (piece == 'k' && o == Square(4, 0) && (d == Square(6, 0) || d == Square(2, 0))) ||
    (piece == 'K' && o == Square(4, 7) && (d == Square(6, 7) || d == Square(2, 7)))
  }

  /** The corner the castling rook leaves and the square it lands on. */
  function RookFrom(d: Square): Square { Square(if d.x == 6 then 7 else 0, d.y) }
  function RookTo(d: Square): Square { Square(if d.x == 6 then 5 else 3, d.y) }

  /** The rook move that completes castling: the corner is emptied and the
      side's rook written next to the king. The piece counts are untouched. */
  function RookRelocated(b: Board, piece: char, o: Square, d: Square): (r: Board)
    requires IsBoard(b)
    ensures IsBoard(r)
  {
    if IsCastling(piece, o, d) then
      Put(Put(b, RookFrom(d), ' '), RookTo(d), if piece == 'K' then 'R' else 'r')
    else b
  }

  /** The en passant capture: the pawn behind `d` is removed and the enemy
      pawn count lowered. */
  function EnPassantCaptured(b: Board, counts: map<string, int>, white: bool, d: Square, ep: bool)
    : (r: (Board, map<string, int>))
    requires IsBoard(b) && CountKeys <= counts.Keys && (ep ==> OnBoard(Behind(white, d)))
    ensures IsBoard(r.0) && r.1.Keys == counts.Keys
  {
    if !ep then (b, counts)
    else (Put(b, Behind(white, d), ' '), Dec(counts, [PawnOf(!white)]))
  }

  /** The square made the en passant target: the crossed square after a
      double step from the pawn's home row, none after anything else. */
  function EnPassantTarget(piece: char, o: Square, d: Square): Option<Square> {
    if piece == 'P' && o.y == 6 && d.y == 4 then Some(Square(o.x, 5))
    else if piece == 'p' && o.y == 1 && d.y == 3 then Some(Square(o.x, 2))
    else None
  }

  /** The promotion pieces offered to `white`, in the order listed. */
  function PromotionChoices(white: bool): string { if white then "QNRB" else "qnrb" }

  /** `check_promotions` with the player's choice given: the first pawn of
      the side to move on its last row becomes `choice`, the counts move one
      from the pawn to the choice's bucket, and '=' and the upper-case letter
      are appended to the move text. */
  function Promoted(b: Board, counts: map<string, int>, pgn: string, white: bool, choice: char)
    : (r: (Board, map<string, int>, string))
    requires IsBoard(b) && CountKeys <= counts.Keys && choice in PromotionChoices(white)
    ensures IsBoard(r.0) && r.1.Keys == counts.Keys
  {
    var y := LastRow(white);
    var pawn := PawnOf(white);
    if pawn in b[y] then
      var x := Fen.IndexOf(b[y], pawn);
      BucketIsKey(choice, x, y);
      (Put(b, Square(x, y), choice), Inc(Dec(counts, [pawn]), Bucket(choice, x, y)), pgn + "=" + [ToUpper(choice)])
    else (b, counts, pgn)
  }

  /** What `make_move` needs: the move's squares (and the captured pawn's)
      on the board, a complete count table and rights list, and a promotion
      choice of the side to move. */
  predicate CanApply(g: Game, m: Move, ep: bool, choice: char) {
    ValidCells(g.pos) && OnBoard(m.orig) && OnBoard(m.dest) && |g.castling| == 4 &&
    CountKeys <= g.pieceCount.Keys && (ep ==> OnBoard(Behind(g.turn, m.dest))) &&
    choice in PromotionChoices(g.turn)
  }

  /** The board and counts after the piece moves, a capture is counted, a
      castling rook is moved and a pawn taken en passant is removed. */
  function Moved(g: Game, m: Move, ep: bool): (r: (Board, map<string, int>))
    requires ValidCells(g.pos) && OnBoard(m.orig) && OnBoard(m.dest) && CountKeys <= g.pieceCount.Keys
    requires ep ==> OnBoard(Behind(g.turn, m.dest))
    ensures IsBoard(r.0) && r.1.Keys == g.pieceCount.Keys
  {
    var o, d := m.orig, m.dest;
    var piece, endPiece := At(g.pos, o), At(g.pos, d);
    var b1 := Put(Put(g.pos, o, ' '), d, piece);
    var c1 := Captured(g.pieceCount, endPiece, d);
    var b2 := RookRelocated(b1, piece, o, d);
    EnPassantCaptured(b2, c1, g.turn, d, ep)
  }

  /** `make_move` followed by the promotion and the turn change. */
  function Apply(g: Game, m: Move, ep: bool, choice: char): (r: Game)
    requires CanApply(g, m, ep, choice)
    ensures IsBoard(r.pos) && |r.castling| == 4 && r.pieceCount.Keys == g.pieceCount.Keys
  {
    var o, d := m.orig, m.dest;
    var piece, endPiece := At(g.pos, o), At(g.pos, d);
    var (b3, c3) := Moved(g, m, ep);
    var (b4, c4, pgn4) := Promoted(b3, c3, g.pgn, g.turn, choice);
    Game(b4, !g.turn, RightsAfter(g.castling, o), EnPassantTarget(piece, o, d),
         if piece == 'P' || piece == 'p' || endPiece != ' ' then 0 else g.halfmove + 1,
         if g.turn then g.fullmove else g.fullmove + 1,
         c4, pgn4)
  }

  /** `Apply` assembled from its stages: the moved board and counts, the
      promotion made on them, and the rights, target and clocks. */
  lemma ApplyStages(g: Game, m: Move, ep: bool, choice: char, b3: Board, c3: map<string, int>,
                    promoted: (Board, map<string, int>, string))
    requires CanApply(g, m, ep, choice) && (b3, c3) == Moved(g, m, ep)
    requires promoted == Promoted(b3, c3, g.pgn, g.turn, choice)
    ensures Apply(g, m, ep, choice) ==
      Game(promoted.0, !g.turn, RightsAfter(g.castling, m.orig), EnPassantTarget(At(g.pos, m.orig), m.orig, m.dest),
           if At(g.pos, m.orig) == 'P' || At(g.pos, m.orig) == 'p' || At(g.pos, m.dest) != ' ' then 0 else g.halfmove + 1,
           if g.turn then g.fullmove else g.fullmove + 1, promoted.1, promoted.2)
  {
  }

  // ---------------------------------------------------------------------
  // What make_move does to the board, the rights and the clocks

  /** `Promoted` writes at most one cell, one that held the pawn. */
  lemma PromotedFrame(b: Board, counts: map<string, int>, pgn: string, white: bool, choice: char, s: Square)
    requires IsBoard(b) && CountKeys <= counts.Keys && choice in PromotionChoices(white) && OnBoard(s)
    ensures At(Promoted(b, counts, pgn, white, choice).0, s) == At(b, s) || At(b, s) == PawnOf(white)
  {
  }

  /** The rights after a move only lose entries: a move from e1 clears both
      white rights, a move from a rook corner clears that corner's right (and
      the same for black), and a move from any other square keeps them all. */
  lemma ApplyRights(g: Game, m: Move, ep: bool, choice: char)
    requires CanApply(g, m, ep, choice)
    ensures var r := Apply(g, m, ep, choice);
      (forall i :: 0 <= i < 4 && r.castling[i] ==> g.castling[i]) &&
      (m.orig == Square(4, 7) ==> !r.castling[0] && !r.castling[1]) &&
      (m.orig == Square(4, 0) ==> !r.castling[2] && !r.castling[3]) &&
      (m.orig == Square(7, 7) ==> !r.castling[0]) && (m.orig == Square(0, 7) ==> !r.castling[1]) &&
      (m.orig == Square(7, 0) ==> !r.castling[2]) && (m.orig == Square(0, 0) ==> !r.castling[3]) &&
      (m.orig !in {Square(0, 0), Square(7, 0), Square(0, 7), Square(7, 7), Square(4, 0), Square(4, 7)} ==>
         r.castling == g.castling)
  {
  }

  /** After castling the king stands on g or c, the corner is empty and the
      rook stands on f or d, whatever the promotion step does. */
  lemma ApplyCastling(g: Game, m: Move, ep: bool, choice: char)
    requires CanApply(g, m, ep, choice) && IsCastling(At(g.pos, m.orig), m.orig, m.dest)
    ensures var r := Apply(g, m, ep, choice); var king := At(g.pos, m.orig);
      At(r.pos, m.orig) == ' ' && At(r.pos, m.dest) == king &&
      At(r.pos, RookFrom(m.dest)) == ' ' && At(r.pos, RookTo(m.dest)) == (if king == 'K' then 'R' else 'r')
  {
    var o, d := m.orig, m.dest;
    var piece := At(g.pos, o);
    var b1 := Put(Put(g.pos, o, ' '), d, piece);
    var b2 := RookRelocated(b1, piece, o, d);
    var (b3, c3) := EnPassantCaptured(b2, Captured(g.pieceCount, At(g.pos, d), d), g.turn, d, ep);
    assert Behind(g.turn, d).y != d.y;
    assert At(b3, o) == ' ' && At(b3, d) == piece && At(b3, RookFrom(d)) == ' ';
    PromotedFrame(b3, c3, g.pgn, g.turn, choice, o);
    PromotedFrame(b3, c3, g.pgn, g.turn, choice, d);
    PromotedFrame(b3, c3, g.pgn, g.turn, choice, RookFrom(d));
    PromotedFrame(b3, c3, g.pgn, g.turn, choice, RookTo(d));
  }

  /** The start square is left empty and the destination holds the moved
      piece, or the promotion choice when a pawn of the side to move reached
      its last row. */
  lemma ApplyPlacesPiece(g: Game, m: Move, ep: bool, choice: char)
    requires CanApply(g, m, ep, choice) && m.orig != m.dest
    ensures var r := Apply(g, m, ep, choice); var piece := At(g.pos, m.orig);
      At(r.pos, m.orig) == ' ' &&
      (At(r.pos, m.dest) == piece ||
       (piece == PawnOf(g.turn) && m.dest.y == LastRow(g.turn) && At(r.pos, m.dest) == choice))
  {
    var o, d := m.orig, m.dest;
    var piece := At(g.pos, o);
    var b1 := Put(Put(g.pos, o, ' '), d, piece);
    var b2 := RookRelocated(b1, piece, o, d);
    var (b3, c3) := EnPassantCaptured(b2, Captured(g.pieceCount, At(g.pos, d), d), g.turn, d, ep);
    assert At(b3, o) == ' ';
    assert At(b3, d) == piece;
    PromotedFrame(b3, c3, g.pgn, g.turn, choice, o);
    PromotedFrame(b3, c3, g.pgn, g.turn, choice, d);
  }

  // ---------------------------------------------------------------------
  // piece_count against a recount of the board

  lemma SpaceNotKey()
    ensures " " !in CountKeys
  {
  }

  /** Count tables that agree on the count keys agree with the same board. */
  lemma MatchOn(b: Board, c: map<string, int>, c': map<string, int>)
    requires CountsMatch(b, c) && CountKeys <= c'.Keys
    requires forall k :: k in CountKeys ==> c'[k] == c[k]
    ensures CountsMatch(b, c')
  {
  }

  /** The index in the rights list of the right a castling move to `d`
      uses: white king side, white queen side, black king side, black queen
      side. */
  function RightOf(d: Square): (i: nat)
    ensures i < 4
  {
    if d.y == 7 then (if d.x == 6 then 0 else 1) else (if d.x == 6 then 2 else 3)
  }

  /** Every right held is backed by the board: the king on its home square
      and the rook on the corner the right names. */
  predicate RightsBacked(b: Board, castling: seq<bool>)
    requires IsBoard(b) && |castling| == 4
  {
    (castling[0] ==> At(b, Square(4, 7)) == 'K' && At(b, Square(7, 7)) == 'R') &&
    (castling[1] ==> At(b, Square(4, 7)) == 'K' && At(b, Square(0, 7)) == 'R') &&
    (castling[2] ==> At(b, Square(4, 0)) == 'k' && At(b, Square(7, 0)) == 'r') &&
    (castling[3] ==> At(b, Square(4, 0)) == 'k' && At(b, Square(0, 0)) == 'r')
  }

  /** What the move generators guarantee `make_move` about a move: a real
      move, a bishop keeping its square colour, for castling the right held
      and the rook's landing square empty (as `get_king_moves` tests), and
      for en passant the mover's pawn with the enemy pawn behind the
      destination. */
  predicate CountSafe(g: Game, m: Move, ep: bool)
    requires IsBoard(g.pos) && OnBoard(m.orig) && OnBoard(m.dest) && |g.castling| == 4
  {
    var piece := At(g.pos, m.orig);
    m.orig != m.dest &&
    ((piece == 'B' || piece == 'b') ==> IsLight(m.orig.x, m.orig.y) == IsLight(m.dest.x, m.dest.y)) &&
    (IsCastling(piece, m.orig, m.dest) ==> g.castling[RightOf(m.dest)] && At(g.pos, RookTo(m.dest)) == ' ') &&
    (ep ==> OnBoard(Behind(g.turn, m.dest)) && piece == PawnOf(g.turn) &&
            At(g.pos, Behind(g.turn, m.dest)) == PawnOf(!g.turn))
  }

  /** One key of the tables `MoveCounts` compares. */
  lemma MoveCountsAt(counts: map<string, int>, piece: char, endPiece: char, o: Square, d: Square, k: string)
    requires CountKeys <= counts.Keys && IsPieceKey(endPiece) && k in CountKeys && " " !in CountKeys
    requires Bucket(piece, o.x, o.y) == Bucket(piece, d.x, d.y)
    ensures var c0 := Recounted(counts, piece, ' ', o);
      Captured(counts, endPiece, d)[k] == Recounted(c0, endPiece, piece, d)[k]
  {
    var c0 := Recounted(counts, piece, ' ', o);
    assert c0[k] == counts[k] - Indicator(Bucket(piece, o.x, o.y) == k);
    assert Recounted(c0, endPiece, piece, d)[k] ==
      c0[k] - Indicator(Bucket(endPiece, d.x, d.y) == k) + Indicator(Bucket(piece, d.x, d.y) == k);
    if endPiece == ' ' {
      assert Bucket(endPiece, d.x, d.y) == " ";
    }
  }

  /** Moving the piece and lowering the captured piece's bucket keeps the
      counts right. */
  lemma MoveCounts(b: Board, counts: map<string, int>, o: Square, d: Square)
    requires ValidCells(b) && OnBoard(o) && OnBoard(d) && o != d && CountsMatch(b, counts)
    requires (At(b, o) == 'B' || At(b, o) == 'b') ==> IsLight(o.x, o.y) == IsLight(d.x, d.y)
    ensures CountsMatch(Put(Put(b, o, ' '), d, At(b, o)), Captured(counts, At(b, d), d))
  {
    var piece, endPiece := At(b, o), At(b, d);
    var b0 := Put(b, o, ' ');
    CountsAfterWrite(b, counts, o, ' ');
    var c0 := Recounted(counts, piece, ' ', o);
    assert At(b0, d) == endPiece;
    CountsAfterWrite(b0, c0, d, piece);
    var c1 := Recounted(c0, endPiece, piece, d);
    var c2 := Captured(counts, endPiece, d);
    SpaceNotKey();
    assert Bucket(piece, o.x, o.y) == Bucket(piece, d.x, d.y);
    forall k | k in CountKeys
      ensures c2[k] == c1[k]
    {
      MoveCountsAt(counts, piece, endPiece, o, d, k);
    }
    MatchOn(Put(b0, d, piece), c1, c2);
  }

  /** The castling rook's move leaves every count as it was. */
  lemma RookCounts(b: Board, counts: map<string, int>, from: Square, to: Square, rook: char)
    requires IsBoard(b) && OnBoard(from) && OnBoard(to) && from != to && CountsMatch(b, counts)
    requires At(b, from) == rook && At(b, to) == ' ' && (rook == 'R' || rook == 'r')
    ensures CountsMatch(Put(Put(b, from, ' '), to, rook), counts)
  {
    var b0 := Put(b, from, ' ');
    CountsAfterWrite(b, counts, from, ' ');
    var c0 := Recounted(counts, rook, ' ', from);
    assert At(b0, to) == ' ';
    CountsAfterWrite(b0, c0, to, rook);
    MatchOn(Put(b0, to, rook), Recounted(c0, ' ', rook, to), counts);
  }

  /** Removing a pawn lowers its count by one. */
  lemma RemovePawnCounts(b: Board, counts: map<string, int>, s: Square, pawn: char)
    requires IsBoard(b) && OnBoard(s) && CountsMatch(b, counts) && At(b, s) == pawn && (pawn == 'P' || pawn == 'p')
    ensures CountsMatch(Put(b, s, ' '), Dec(counts, [pawn]))
  {
    CountsAfterWrite(b, counts, s, ' ');
    RecountedEmpties(counts, pawn, s, [pawn]);
    MatchOn(Put(b, s, ' '), Recounted(counts, pawn, ' ', s), Dec(counts, [pawn]));
  }

  /** The promotion moves one count from the pawn to the choice's bucket. */
  lemma PromotedCounts(b: Board, counts: map<string, int>, pgn: string, white: bool, choice: char)
    requires IsBoard(b) && CountsMatch(b, counts) && choice in PromotionChoices(white)
    ensures CountsMatch(Promoted(b, counts, pgn, white, choice).0, Promoted(b, counts, pgn, white, choice).1)
  {
    var y, pawn := LastRow(white), PawnOf(white);
    if pawn in b[y] {
      var x := Fen.IndexOf(b[y], pawn);
      ChoiceBucket(white, choice, x, y);
      PromoteCellCounts(b, counts, Square(x, y), pawn, choice);
    }
  }

  lemma PromoteCellCounts(b: Board, counts: map<string, int>, s: Square, pawn: char, choice: char)
    requires IsBoard(b) && OnBoard(s) && CountsMatch(b, counts) && At(b, s) == pawn && (pawn == 'P' || pawn == 'p')
    requires Bucket(choice, s.x, s.y) in CountKeys
    ensures CountsMatch(Put(b, s, choice), Inc(Dec(counts, [pawn]), Bucket(choice, s.x, s.y)))
  {
    CountsAfterWrite(b, counts, s, choice);
    RecountedMoves(counts, pawn, choice, s, [pawn], Bucket(choice, s.x, s.y));
    MatchOn(Put(b, s, choice), Recounted(counts, pawn, choice, s), Inc(Dec(counts, [pawn]), Bucket(choice, s.x, s.y)));
  }

  /** Replacing a cell of bucket `from` by one of bucket `to` moves one
      count from `from` to `to`. */
  lemma RecountedMoves(counts: map<string, int>, old_: char, new_: char, s: Square, from: string, to: string)
    requires CountKeys <= counts.Keys && from in counts && to in counts
    requires Bucket(old_, s.x, s.y) == from && Bucket(new_, s.x, s.y) == to
    ensures forall k :: k in counts ==> Recounted(counts, old_, new_, s)[k] == Inc(Dec(counts, from), to)[k]
  {
  }

  /** Emptying a cell of bucket `from` lowers the count of `from` by one. */
  lemma RecountedEmpties(counts: map<string, int>, old_: char, s: Square, from: string)
    requires CountKeys <= counts.Keys && from in counts && Bucket(old_, s.x, s.y) == from
    ensures forall k :: k in CountKeys ==> Recounted(counts, old_, ' ', s)[k] == Dec(counts, from)[k]
  {
    SpaceNotKey();
  }

  /** A promotion choice counts under a key of the table other than the
      pawn's and the kings'. */
  lemma ChoiceBucket(white: bool, choice: char, x: int, y: int)
    requires choice in PromotionChoices(white)
    ensures Bucket(choice, x, y) in CountKeys
    ensures Bucket(choice, x, y) != "P" && Bucket(choice, x, y) != "p"
    ensures Bucket(choice, x, y) != "K" && Bucket(choice, x, y) != "k"
  {
    assert choice in {'Q', 'N', 'R', 'B', 'q', 'n', 'r', 'b'};
  }

  /** `piece_count` stays equal to a recount of the board across a move:
      captures, en passant captures, castling and promotions included, as
      long as every castling right held is backed by its king and rook. */
  lemma ApplyKeepsCounts(g: Game, m: Move, ep: bool, choice: char)
    requires CanApply(g, m, ep, choice) && CountSafe(g, m, ep) && CountsMatch(g.pos, g.pieceCount)
    requires RightsBacked(g.pos, g.castling)
    ensures CountsMatch(Apply(g, m, ep, choice).pos, Apply(g, m, ep, choice).pieceCount)
  {
    var o, d := m.orig, m.dest;
    var piece := At(g.pos, o);
    var b1 := Put(Put(g.pos, o, ' '), d, piece);
    var c1 := Captured(g.pieceCount, At(g.pos, d), d);
    MoveCounts(g.pos, g.pieceCount, o, d);
    var b2 := RookRelocated(b1, piece, o, d);
    if IsCastling(piece, o, d) {
      var rook := if piece == 'K' then 'R' else 'r';
      assert At(g.pos, RookFrom(d)) == rook;
      RookCounts(b1, c1, RookFrom(d), RookTo(d), rook);
    }
    var (b3, c3) := EnPassantCaptured(b2, c1, g.turn, d, ep);
    if ep {
      assert b2 == b1;
      RemovePawnCounts(b2, c1, Behind(g.turn, d), PawnOf(!g.turn));
    }
    PromotedCounts(b3, c3, g.pgn, g.turn, choice);
  }

  /** A move that captures no king keeps the number of kings of each side
      on the board: with one each before, there is one each after. */
  lemma ApplyKeepsKings(g: Game, m: Move, ep: bool, choice: char)
    requires CanApply(g, m, ep, choice) && CountSafe(g, m, ep) && CountsMatch(g.pos, g.pieceCount)
    requires RightsBacked(g.pos, g.castling)
    requires At(g.pos, m.dest) != 'K' && At(g.pos, m.dest) != 'k'
    ensures CountBoard(Apply(g, m, ep, choice).pos, "K") == CountBoard(g.pos, "K")
    ensures CountBoard(Apply(g, m, ep, choice).pos, "k") == CountBoard(g.pos, "k")
  {
    ApplyKeepsCounts(g, m, ep, choice);
    var d := m.dest;
    var c1 := Captured(g.pieceCount, At(g.pos, d), d);
    var b2 := RookRelocated(Put(Put(g.pos, m.orig, ' '), d, At(g.pos, m.orig)), At(g.pos, m.orig), m.orig, d);
    var (b3, c3) := EnPassantCaptured(b2, c1, g.turn, d, ep);
    assert c3["K"] == g.pieceCount["K"] && c3["k"] == g.pieceCount["k"];
    PromotedKeepsKings(b3, c3, g.pgn, g.turn, choice);
  }

  // ---------------------------------------------------------------------
  // Castling rights after a corner capture: as written and as intended

  /** As written, capturing the rook on h1 keeps the white king side right
      although no rook backs it any more: `make_move` clears rights by the
      start square only. */
  lemma CornerCaptureKeepsRight(g: Game, m: Move, ep: bool, choice: char)
    requires CanApply(g, m, ep, choice) && g.castling[0]
    requires m.dest == Square(7, 7) && m.orig != Square(7, 7) && m.orig != Square(4, 7)
    requires At(g.pos, m.orig) != 'R'
    ensures Apply(g, m, ep, choice).castling[0]
    ensures !RightsBacked(Apply(g, m, ep, choice).pos, Apply(g, m, ep, choice).castling)
  {
    ApplyPlacesPiece(g, m, ep, choice);
  }

  /** As written, castling king side after the h1 rook was captured writes
      a rook on f1 that `piece_count` never gains and erases whatever stands
      on h1 without lowering its count: the counts no longer agree with the
      board (1.g4 b6 2.Bh3 Bb7 3.e3 a6 4.Ne2 Bxh1 5.O-O reaches this). */
  lemma CastlingAfterCornerCaptureMiscounts(g: Game, ep: bool, choice: char)
    requires CanApply(g, Move(Square(4, 7), Square(6, 7)), ep, choice) && !ep
    requires CountsMatch(g.pos, g.pieceCount) && g.turn && 'P' !in g.pos[0]
    requires At(g.pos, Square(4, 7)) == 'K' && At(g.pos, Square(5, 7)) == ' ' && At(g.pos, Square(6, 7)) == ' '
    requires At(g.pos, Square(7, 7)) != 'R'
    ensures var r := Apply(g, Move(Square(4, 7), Square(6, 7)), ep, choice);
      CountBoard(r.pos, "R") == r.pieceCount["R"] + 1 && !CountsMatch(r.pos, r.pieceCount)
  {
    var o, d, h, f := Square(4, 7), Square(6, 7), Square(7, 7), Square(5, 7);
    var b1 := Put(Put(g.pos, o, ' '), d, 'K');
    MoveCounts(g.pos, g.pieceCount, o, d);
    var c1 := Captured(g.pieceCount, ' ', d);
    assert c1 == g.pieceCount;
    var b1' := Put(b1, h, ' ');
    CountsAfterWrite(b1, c1, h, ' ');
    var c1' := Recounted(c1, At(b1, h), ' ', h);
    assert At(b1', f) == ' ';
    CountsAfterWrite(b1', c1', f, 'R');
    var b2 := Put(b1', f, 'R');
    assert b2 == RookRelocated(b1, 'K', o, d);
    assert Bucket(At(b1, h), h.x, h.y) != "R";
    assert CountBoard(b2, "R") == c1["R"] + 1;
    assert b2[0] == g.pos[0];
    var r := Apply(g, Move(o, d), ep, choice);
    assert r.pos == b2 && r.pieceCount == c1;
  }

  /** `make_move` as evidently intended: a move onto a rook corner or a
      king's home square also drops the rights that square backs, so a
      captured rook takes its right with it. */
  function ApplyCorrected(g: Game, m: Move, ep: bool, choice: char): (r: Game)
    requires CanApply(g, m, ep, choice)
    ensures r.pos == Apply(g, m, ep, choice).pos && |r.castling| == 4
  {
    var r := Apply(g, m, ep, choice);
    r.(castling := RightsAfter(r.castling, m.dest))
  }

  /** A cell that is neither square of the move, nor a square the castling
      rook touches, nor a pawn's cell keeps its piece across `Apply`. */
  lemma CellKept(g: Game, m: Move, ep: bool, choice: char, s: Square)
    requires CanApply(g, m, ep, choice) && OnBoard(s) && s != m.orig && s != m.dest
    requires At(g.pos, s) != 'P' && At(g.pos, s) != 'p'
    requires ep ==> At(g.pos, Behind(g.turn, m.dest)) == PawnOf(!g.turn)
    requires IsCastling(At(g.pos, m.orig), m.orig, m.dest) ==> s != RookFrom(m.dest) && s != RookTo(m.dest)
    ensures At(Apply(g, m, ep, choice).pos, s) == At(g.pos, s)
  {
    var o, d := m.orig, m.dest;
    var piece := At(g.pos, o);
    var b1 := Put(Put(g.pos, o, ' '), d, piece);
    var b2 := RookRelocated(b1, piece, o, d);
    var (b3, c3) := EnPassantCaptured(b2, Captured(g.pieceCount, At(g.pos, d), d), g.turn, d, ep);
    assert At(b3, s) == At(g.pos, s);
    PromotedFrame(b3, c3, g.pgn, g.turn, choice, s);
  }

  /** The king's home square and the rook's corner behind right `i`. */
  function KingHome(i: nat): Square { Square(4, if i < 2 then 7 else 0) }
  function Corner(i: nat): Square { Square(if i % 2 == 0 then 7 else 0, if i < 2 then 7 else 0) }

  /** A right still held after `RightsAfter(c, s)` was held before, and
      `s` is neither its king's home square nor its corner. */
  lemma RightsAfterHeld(c: seq<bool>, s: Square, i: nat)
    requires |c| == 4 && i < 4 && RightsAfter(c, s)[i]
    ensures c[i] && s != KingHome(i) && s != Corner(i)
  {
  }

  /** A right the corrected `make_move` leaves held was held before and
      touched by neither square of the move, so its king and rook cells keep
      their pieces. */
  lemma HeldRightCellsKept(g: Game, m: Move, ep: bool, choice: char, i: nat)
    requires CanApply(g, m, ep, choice) && i < 4
    requires ep ==> At(g.pos, Behind(g.turn, m.dest)) == PawnOf(!g.turn)
    requires RightsBacked(g.pos, g.castling)
    ensures var r := ApplyCorrected(g, m, ep, choice);
      r.castling[i] ==> g.castling[i] && At(r.pos, KingHome(i)) == At(g.pos, KingHome(i)) &&
                        At(r.pos, Corner(i)) == At(g.pos, Corner(i))
  {
    var o, d := m.orig, m.dest;
    if RightsAfter(RightsAfter(g.castling, o), d)[i] {
      RightsAfterHeld(RightsAfter(g.castling, o), d, i);
      RightsAfterHeld(g.castling, o, i);
      BackedCellsNotPawns(g.pos, g.castling, i);
      if IsCastling(At(g.pos, o), o, d) {
        assert RookFrom(d).y != KingHome(i).y && RookTo(d).y != KingHome(i).y;
      }
      CellKept(g, m, ep, choice, KingHome(i));
      CellKept(g, m, ep, choice, Corner(i));
    }
  }

  /** The corrected `make_move` keeps every right it leaves backed by its
      king and rook. */
  lemma ApplyCorrectedKeepsRightsBacked(g: Game, m: Move, ep: bool, choice: char)
    requires CanApply(g, m, ep, choice) && RightsBacked(g.pos, g.castling)
    requires ep ==> At(g.pos, Behind(g.turn, m.dest)) == PawnOf(!g.turn)
    ensures RightsBacked(ApplyCorrected(g, m, ep, choice).pos, ApplyCorrected(g, m, ep, choice).castling)
  {
    HeldRightCellsKept(g, m, ep, choice, 0);
    HeldRightCellsKept(g, m, ep, choice, 1);
    HeldRightCellsKept(g, m, ep, choice, 2);
    HeldRightCellsKept(g, m, ep, choice, 3);
  }

  /** The king and rook cells behind a held, backed right hold no pawn. */
  lemma BackedCellsNotPawns(b: Board, c: seq<bool>, i: nat)
    requires IsBoard(b) && |c| == 4 && RightsBacked(b, c) && i < 4 && c[i]
    ensures At(b, KingHome(i)) != 'P' && At(b, KingHome(i)) != 'p'
    ensures At(b, Corner(i)) != 'P' && At(b, Corner(i)) != 'p'
  {
  }

  /** With the corrected `make_move`, agreement of the counts with the board
      and backing of the rights are an invariant of every move the
      generators can list: what holds before the move holds after it. */
  lemma ApplyCorrectedKeepsCounts(g: Game, m: Move, ep: bool, choice: char)
    requires CanApply(g, m, ep, choice) && CountSafe(g, m, ep)
    requires CountsMatch(g.pos, g.pieceCount) && RightsBacked(g.pos, g.castling)
    ensures var r := ApplyCorrected(g, m, ep, choice);
      CountsMatch(r.pos, r.pieceCount) && RightsBacked(r.pos, r.castling)
  {
    ApplyKeepsCounts(g, m, ep, choice);
    ApplyCorrectedKeepsRightsBacked(g, m, ep, choice);
  }

  lemma PromotedKeepsKings(b: Board, counts: map<string, int>, pgn: string, white: bool, choice: char)
    requires IsBoard(b) && CountKeys <= counts.Keys && choice in PromotionChoices(white)
    ensures Promoted(b, counts, pgn, white, choice).1["K"] == counts["K"]
    ensures Promoted(b, counts, pgn, white, choice).1["k"] == counts["k"]
  {
    var y := LastRow(white);
    if PawnOf(white) in b[y] {
      var x := Fen.IndexOf(b[y], PawnOf(white));
      ChoiceBucket(white, choice, x, y);
    }
  }

  // ---------------------------------------------------------------------
  // En passant, clocks and turn after make_move

  /** An en passant capture onto an empty square removes the pawn behind the
      destination and lowers the other side's pawn count by one. */
  lemma ApplyEnPassant(g: Game, m: Move, choice: char)
    requires CanApply(g, m, true, choice) && At(g.pos, m.dest) == ' '
    ensures var r := Apply(g, m, true, choice);
      At(r.pos, Behind(g.turn, m.dest)) == ' ' &&
      r.pieceCount[[PawnOf(!g.turn)]] == g.pieceCount[[PawnOf(!g.turn)]] - 1
  {
    var o, d := m.orig, m.dest;
    var piece := At(g.pos, o);
    var b2 := RookRelocated(Put(Put(g.pos, o, ' '), d, piece), piece, o, d);
    var c1 := Captured(g.pieceCount, ' ', d);
    var (b3, c3) := EnPassantCaptured(b2, c1, g.turn, d, true);
    PromotedFrame(b3, c3, g.pgn, g.turn, choice, Behind(g.turn, d));
    var y := LastRow(g.turn);
    if PawnOf(g.turn) in b3[y] {
      var x := Fen.IndexOf(b3[y], PawnOf(g.turn));
      ChoiceBucket(g.turn, choice, x, y);
    }
  }

  /** The en passant target is set exactly after a double step of a pawn
      from its home row, and it is the square the pawn crossed. */
  lemma ApplyEnPassantTarget(g: Game, m: Move, ep: bool, choice: char)
    requires CanApply(g, m, ep, choice)
    ensures var r := Apply(g, m, ep, choice); var piece := At(g.pos, m.orig);
      (r.enPassant.Some? <==>
         (piece == 'P' && m.orig.y == 6 && m.dest.y == 4) || (piece == 'p' && m.orig.y == 1 && m.dest.y == 3)) &&
      (r.enPassant.Some? ==> r.enPassant.value == Square(m.orig.x, (m.orig.y + m.dest.y) / 2))
  {
  }

  /** The halfmove clock restarts on a pawn move or a capture and otherwise
      counts on; the move number grows after black's move; the turn passes. */
  lemma ApplyClocks(g: Game, m: Move, ep: bool, choice: char)
    requires CanApply(g, m, ep, choice)
    ensures var r := Apply(g, m, ep, choice); var piece := At(g.pos, m.orig);
      r.turn == !g.turn &&
      r.halfmove == (if piece == 'P' || piece == 'p' || At(g.pos, m.dest) != ' ' then 0 else g.halfmove + 1) &&
      r.fullmove == (if g.turn then g.fullmove else g.fullmove + 1)
  {
  }

  // ---------------------------------------------------------------------
  // insufficient_material and is_end_of_game

  /** `sum(self.piece_count.values())` over the fourteen keys. */
  function MaterialSum(c: map<string, int>): int
    requires c.Keys == CountKeys
  {
    c["K"] + c["Q"] + c["R"] + c["dB"] + c["lB"] + c["N"] + c["P"] +
    c["k"] + c["q"] + c["r"] + c["db"] + c["lb"] + c["n"] + c["p"]
  }

  /** `insufficient_material`: king against king; king and bishops of one
      colour against a lone king; king and one knight against a lone king;
      kings with bishops all on one colour on both sides. A count used as
      a condition on its own means "not zero". */
  predicate MaterialDraw(c: map<string, int>)
    requires c.Keys == CountKeys
  {
    var sum := MaterialSum(c);
    var kings := c["K"] == 1 && c["k"] == 1;
    (kings && sum == 2) ||
    (kings && c["lB"] != 0 && sum - c["lB"] == 2) ||
    (kings && c["dB"] != 0 && sum - c["dB"] == 2) ||
    (kings && c["lb"] != 0 && sum - c["lb"] == 2) ||
    (kings && c["db"] != 0 && sum - c["db"] == 2) ||
    (kings && c["N"] == 1 && sum - c["N"] == 2) ||
    (kings && c["n"] == 1 && sum - c["n"] == 2) ||
    (kings && c["lB"] != 0 && c["dB"] == 0 && c["lb"] != 0 && c["db"] == 0 && sum - c["lB"] - c["lb"] == 2) ||
    (kings && c["lB"] == 0 && c["dB"] != 0 && c["lb"] == 0 && c["db"] != 0 && sum - c["dB"] - c["db"] == 2)
  }

  /** A bare king on each side is a draw. */
  lemma KingAgainstKing(c: map<string, int>)
    requires c.Keys == CountKeys && c["K"] == 1 && c["k"] == 1
    requires forall k :: k in CountKeys && k != "K" && k != "k" ==> c[k] == 0
    ensures MaterialDraw(c)
  {
    assert c["Q"] == 0 && c["R"] == 0 && c["dB"] == 0 && c["lB"] == 0 && c["N"] == 0 && c["P"] == 0;
    assert c["q"] == 0 && c["r"] == 0 && c["db"] == 0 && c["lb"] == 0 && c["n"] == 0 && c["p"] == 0;
  }

  /** With counts that are not negative, a material draw is exactly: one
      king each, no queen, rook or pawn, at most one knight in all and then
      no bishop, and every bishop on the board on squares of one colour. */
  lemma MaterialDrawMeaning(c: map<string, int>)
    requires c.Keys == CountKeys && forall k :: k in CountKeys ==> c[k] >= 0
    ensures MaterialDraw(c) <==>
      c["K"] == 1 && c["k"] == 1 &&
      c["Q"] == 0 && c["R"] == 0 && c["P"] == 0 && c["q"] == 0 && c["r"] == 0 && c["p"] == 0 &&
      c["N"] + c["n"] <= 1 &&
      (c["N"] + c["n"] == 1 ==> c["lB"] + c["dB"] + c["lb"] + c["db"] == 0) &&
      (c["lB"] + c["lb"] == 0 || c["dB"] + c["db"] == 0)
  {
    assert "Q" in CountKeys && "R" in CountKeys && "P" in CountKeys && "N" in CountKeys;
    assert "q" in CountKeys && "r" in CountKeys && "p" in CountKeys && "n" in CountKeys;
    assert "lB" in CountKeys && "dB" in CountKeys && "lb" in CountKeys && "db" in CountKeys;
  }

  /** The side to move is in check. */
  predicate InCheck(b: Board, white: bool)
    requires IsBoard(b)
  {
    Attacked(b, white, KingCoordinates(b, white))
  }

  /** The side to move has no legal move. */
  predicate NoLegalMove(b: Board, white: bool, castling: seq<bool>, ep: Option<Square>)
    requires CanGenerate(b, white, castling)
  {
    |LegalMoves(b, white, castling, ep)| == 0
  }

  /** `is_end_of_game` with the repetition counts of the positions seen so
      far: each later test overwrites the verdict of the earlier ones, in the
      order threefold repetition, fifty-move rule, insufficient material,
      stalemate, checkmate. */
  function EndStatus(g: Game, repetitions: seq<int>): Status
    requires CanGenerate(g.pos, g.turn, g.castling) && g.pieceCount.Keys == CountKeys
  {
    var s0 := if exists i :: 0 <= i < |repetitions| && repetitions[i] >= 3 then ThreefoldRepetition else Normal;
    var s1 := if g.halfmove >= 100 then FiftyMoveRule else s0;
    var s2 := if MaterialDraw(g.pieceCount) then InsufficientMaterial else s1;
    var inCheck := InCheck(g.pos, g.turn);
    var stuck := NoLegalMove(g.pos, g.turn, g.castling, g.enPassant);
    var s3 := if !inCheck && stuck then Stalemate else s2;
    if inCheck && stuck then (if g.turn then BlackWins else WhiteWins) else s3
  }

  /** The precedence of the verdicts: checkmate over stalemate over
      insufficient material over the fifty-move rule over repetition. */
  lemma EndStatusPrecedence(g: Game, repetitions: seq<int>)
    requires CanGenerate(g.pos, g.turn, g.castling) && g.pieceCount.Keys == CountKeys
    ensures var status := EndStatus(g, repetitions);
      var inCheck := InCheck(g.pos, g.turn);
      var stuck := NoLegalMove(g.pos, g.turn, g.castling, g.enPassant);
      (stuck && inCheck ==> status == (if g.turn then BlackWins else WhiteWins)) &&
      (stuck && !inCheck ==> status == Stalemate) &&
      (!stuck && MaterialDraw(g.pieceCount) ==> status == InsufficientMaterial) &&
      (!stuck && !MaterialDraw(g.pieceCount) && g.halfmove >= 100 ==> status == FiftyMoveRule) &&
      (!stuck && !MaterialDraw(g.pieceCount) && g.halfmove < 100 ==>
         status == (if exists i :: 0 <= i < |repetitions| && repetitions[i] >= 3 then ThreefoldRepetition else Normal))
  {
  }

  // ---------------------------------------------------------------------
  // The position built from a FEN line (`Position.__init__`)

  /** Every character of a part of `Split(s, sep)` occurs in `s`. */
  lemma {:induction false} SplitChars(s: string, sep: char, i: nat, c: char)
    requires i < |Fen.Split(s, sep)| && c in Fen.Split(s, sep)[i]
    ensures c in s
    decreases |s|
  {
    if |s| > 0 {
      if s[0] == sep {
        if i > 0 {
          SplitChars(s[1..], sep, i - 1, c);
        }
      } else if i > 0 {
        SplitChars(s[1..], sep, i, c);
      } else if c != s[0] {
        SplitChars(s[1..], sep, 0, c);
      }
    }
  }

  /** A piece letter absent from a rank string is absent from its cells. */
  lemma ExpandKeepsOut(r: string, c: char)
    requires IsPiece(c) && c !in r
    ensures c !in Fen.ExpandRank(r)
  {
    Fen.OccurrencesExpand(r, c);
    Fen.OccurrencesPositive(r, c);
    Fen.OccurrencesPositive(Fen.ExpandRank(r), c);
  }

  /** A king standing anywhere is found by `get_king_coordinates`. */
  lemma KingFound(b: Board, white: bool, s: Square)
    requires IsBoard(b) && OnBoard(s) && At(b, s) == KingOf(white)
    ensures OnBoard(KingCoordinates(b, white))
  {
    assert KingOf(white) in b[s.y];
    Fen.KingPlaceFound(b, 8, KingOf(white), s.y);
  }

  /** The count table of a board: every key with its recount. */
  function Recount(b: Board): (counts: map<string, int>)
    ensures counts.Keys == CountKeys && CountsMatch(b, counts)
  {
    map k | k in CountKeys :: CountBoard(b, k)
  }

  /** A table with the count keys and the recounts is `Recount`. */
  lemma RecountUnique(b: Board, counts: map<string, int>)
    requires counts.Keys == CountKeys && forall k :: k in CountKeys ==> counts[k] == CountBoard(b, k)
    ensures counts == Recount(b)
  {
  }

  /** The board `get_position` decodes from a FEN line. */
  function StartBoard(line: string): Board {
    Fen.DecodeBoard(Fen.BoardRanks(line))
  }

  /** The individual checks a line passing the structural checks of
      `check_fen` has passed. */
  lemma PrecheckPassed(line: string)
    requires Fen.FenPrecheck(line) == Fen.FenNormal
    ensures var fields := Fen.Split(line, ' ');
      var ranks := Fen.BoardRanks(line);
      |fields| == 6 && |ranks| == 8 &&
      'P' !in ranks[0] && 'p' !in ranks[0] && 'P' !in ranks[7] && 'p' !in ranks[7] &&
      (forall i :: 0 <= i < 8 ==> Fen.RankOk(ranks[i])) &&
      Fen.TotalOccurrences(ranks, 'K') == 1 && Fen.TotalOccurrences(ranks, 'k') == 1 &&
      |ranks[0]| > 0 && |ranks[7]| > 0 &&
      Fen.CheckCastling(ranks, fields[2]) == Normal &&
      Fen.CheckEnPassant(ranks, fields[3]) == Normal &&
      Fen.CheckMoves(fields[4], fields[5]) == Normal
  {
    var ranks := Fen.BoardRanks(line);
    Fen.RankWidthIsLength(ranks[0]);
    Fen.RankWidthIsLength(ranks[7]);
  }

  /** An en passant field `check_en_passant` accepts names a square. */
  lemma EnPassantShape(ranks: seq<string>, ep: string)
    requires |ranks| == 8 && Fen.CheckEnPassant(ranks, ep) == Normal
    ensures ep != "-" ==> |ep| == 2 && 'a' <= ep[0] <= 'h' && '1' <= ep[1] <= '8'
  {
  }

  /** The fields of a line that passed the structural checks of
      `check_fen`: six of them, a known castling token, a well formed en
      passant square and the two clocks. */
  lemma PrecheckFields(line: string)
    requires Fen.FenPrecheck(line) == Fen.FenNormal
    ensures var fields := Fen.Split(line, ' ');
      |fields| == 6 &&
      fields[2] in Fen.CastlingOptions && |Fen.CastlingOptions[fields[2]]| == 4 &&
      (fields[3] != "-" ==> |fields[3]| == 2 && 'a' <= fields[3][0] <= 'h' && '1' <= fields[3][1] <= '8') &&
      Fen.ParseInt(fields[4]).Some? && Fen.ParseInt(fields[4]).value >= 0 &&
      Fen.ParseInt(fields[5]).Some? && Fen.ParseInt(fields[5]).value >= 1
  {
    var fields := Fen.Split(line, ' ');
    PrecheckPassed(line);
    EnPassantShape(Fen.BoardRanks(line), fields[3]);
    Fen.CheckMovesSpec(fields[4], fields[5]);
    Fen.CastlingOptionsRoundTrip(fields[2]);
  }

  /** What the structural checks of `check_fen` guarantee the constructor:
      six fields, eight decodable ranks, a known castling token, a well
      formed en passant square, the two clocks, and for either side a king
      on the board and no pawn on its promotion row. */
  lemma PrecheckShape(line: string)
    requires Fen.FenPrecheck(line) == Fen.FenNormal
    ensures var fields := Fen.Split(line, ' ');
      |fields| == 6 && |Fen.BoardRanks(line)| == 8 &&
      (forall i :: 0 <= i < 8 ==> Fen.DecodableRank(Fen.BoardRanks(line)[i])) &&
      ValidCells(StartBoard(line)) &&
      fields[2] in Fen.CastlingOptions && |Fen.CastlingOptions[fields[2]]| == 4 &&
      (fields[3] != "-" ==> |fields[3]| == 2 && 'a' <= fields[3][0] <= 'h' && '1' <= fields[3][1] <= '8') &&
      Fen.ParseInt(fields[4]).Some? && Fen.ParseInt(fields[4]).value >= 0 &&
      Fen.ParseInt(fields[5]).Some? && Fen.ParseInt(fields[5]).value >= 1 &&
      CanGenerate(StartBoard(line), true, Fen.CastlingOptions[fields[2]]) &&
      CanGenerate(StartBoard(line), false, Fen.CastlingOptions[fields[2]])
  {
    var fields := Fen.Split(line, ' ');
    var ranks := Fen.BoardRanks(line);
    var b := StartBoard(line);
    PrecheckPassed(line);
    EnPassantShape(ranks, fields[3]);
    Fen.CheckMovesSpec(fields[4], fields[5]);
    Fen.DecodeShape(ranks);
    forall i | 0 <= i < 8
      ensures Fen.DecodableRank(ranks[i])
    {
      if ' ' in ranks[i] {
        SplitChars(fields[0], '/', i, ' ');
      }
    }
    Fen.CastlingOptionsRoundTrip(fields[2]);
    Fen.KingSquareByFile(ranks, 'K');
    Fen.KingSquareByFile(ranks, 'k');
    var yK := Fen.KingPlace(ranks, 8, 'K').value.1;
    var yk := Fen.KingPlace(ranks, 8, 'k').value.1;
    KingFound(b, true, Square(Fen.CountBefore(ranks[yK], 'K'), yK));
    KingFound(b, false, Square(Fen.CountBefore(ranks[yk], 'k'), yk));
    ExpandKeepsOut(ranks[0], 'P');
    ExpandKeepsOut(ranks[7], 'p');
  }

  /** The kings of a line that passed the structural checks of
      `check_fen` and the corrected king test stand on the decoded board and
      do not touch. */
  lemma PrecheckKings(line: string)
    requires Fen.FenPrecheck(line) == Fen.FenNormal && Fen.KingsApartByFile(line)
    ensures IsBoard(StartBoard(line))
    ensures forall s1, s2 ::
      (OnBoard(s1) && OnBoard(s2) && At(StartBoard(line), s1) == 'K' && At(StartBoard(line), s2) == 'k') ==>
        !Fen.Touching(s1, s2)
  {
    PrecheckPassed(line);
    Fen.CheckKingsByFileMeaning(Fen.BoardRanks(line));
  }

  /** Kings that nowhere touch pass `kings_apart`. */
  lemma KingsApartWhenApart(b: Board, white: bool)
    requires IsBoard(b) && OnBoard(KingCoordinates(b, white))
    requires forall s1, s2 ::
      (OnBoard(s1) && OnBoard(s2) && At(b, s1) == 'K' && At(b, s2) == 'k') ==>
        !Fen.Touching(s1, s2)
    ensures KingsApart(b, white, KingCoordinates(b, white))
  {
    var k := KingCoordinates(b, white);
    if !KingsApart(b, white, k) {
      var i, j :| -1 <= i <= 1 && -1 <= j <= 1 && EnemyKingAt(b, white, k, i, j);
      var e := Square(k.x + i, k.y + j);
      if white {
        assert Fen.Touching(k, e);
      } else {
        assert Fen.Touching(e, k);
      }
    }
  }

  /** The game `Position(line)` starts: the decoded board, the side to move,
      the castling rights and en passant square the tables give, the two
      clocks, the counts of the board and the PGN header. */
  function StartGame(line: string): Game
    requires Fen.FenPrecheck(line) == Fen.FenNormal
  {
    PrecheckFields(line);
    var fields := Fen.Split(line, ' ');
    var b := StartBoard(line);
    Game(b, Fen.GetTurn(fields[1]), Fen.CastlingOptions[fields[2]], Fen.GetEnPassant(fields[3]),
         Fen.ParseInt(fields[4]).value, Fen.ParseInt(fields[5]).value, Recount(b), Pgn.SetUpPgn())
  }

  /** The game the constructor starts can be played by either side: a king
      of each colour on the board, no pawn on its promotion row, well formed
      cells and castling rights, counts that agree with the board, a
      non-negative halfmove clock and a positive move number. */
  lemma StartGamePlayable(line: string)
    requires Fen.FenPrecheck(line) == Fen.FenNormal
    ensures var g := StartGame(line);
      CanGenerate(g.pos, true, g.castling) && CanGenerate(g.pos, false, g.castling) &&
      ValidCells(g.pos) && g.pieceCount.Keys == CountKeys && CountsMatch(g.pos, g.pieceCount) &&
      g.halfmove >= 0 && g.fullmove >= 1
  {
    PrecheckShape(line);
  }

  /** In the game the constructor starts from a line that also passes the
      corrected king test, the king of the side to move does not touch the
      other king. */
  lemma StartKingsApart(line: string)
    requires Fen.FenPrecheck(line) == Fen.FenNormal && Fen.KingsApartByFile(line)
    ensures var g := StartGame(line);
      IsBoard(g.pos) && KingsApart(g.pos, g.turn, KingCoordinates(g.pos, g.turn))
  {
    StartGamePlayable(line);
    PrecheckKings(line);
    var g := StartGame(line);
    assert g.pos == StartBoard(line);
    KingsApartWhenApart(g.pos, g.turn);
  }

  /** The FEN `get_fen` writes for the game the constructor starts. */
  function StartFen(line: string): string
    requires Fen.FenPrecheck(line) == Fen.FenNormal
  {
    PrecheckShape(line);
    var g := StartGame(line);
    Fen.FenString(g.pos, g.turn, g.castling, g.enPassant, g.halfmove, g.fullmove)
  }

  /** A canonically written line that the checks accept is what `get_fen`
      writes back for the game the constructor starts. */
  lemma StartGameRoundTrip(line: string)
    requires Fen.FenPrecheck(line) == Fen.FenNormal && Fen.CanonicalFen(line)
    ensures StartFen(line) == line
  {
    Fen.FenRoundTrip(line);
  }

  // ---------------------------------------------------------------------
  // Equality of positions (`Position.__eq__`, `Position.__ne__`)

  /** Two games hold the same position when board, side to move, castling
      rights and en passant square agree; the clocks, the counts and the
      PGN record take no part. */
  predicate SamePosition(g: Game, h: Game) {
    g.pos == h.pos && g.turn == h.turn && g.castling == h.castling && g.enPassant == h.enPassant
  }

  /** The first four fields of a canonical record the checks accept are
      what `get_fen` writes for the board, side to move, castling rights and
      en passant square of the game the constructor starts. */
  lemma PositionFields(line: string)
    requires Fen.FenPrecheck(line) == Fen.FenNormal && Fen.CanonicalFen(line)
    ensures var f := Fen.Split(line, ' ');
      var g := StartGame(line);
      |f| == 6 && IsBoard(g.pos) && |g.castling| == 4 &&
      f[0] == Fen.EncodeRows(g.pos) && f[1] == (if g.turn then "w" else "b") &&
      f[2] == Fen.CastlingText(g.castling) && f[3] == Fen.EnPassantText(g.enPassant)
  {
    var f := Fen.Split(line, ' ');
    PrecheckShape(line);
    Fen.BoardRoundTrip(Fen.BoardRanks(line));
    Fen.JoinSplit(f[0], '/');
    Fen.CastlingOptionsRoundTrip(f[2]);
    Fen.EnPassantRoundTrip(f[3]);
  }

  /** The position values of the game the constructor starts depend on
      the first four fields of the record only. */
  lemma SameFieldsSamePosition(line1: string, line2: string)
    requires Fen.FenPrecheck(line1) == Fen.FenNormal && Fen.FenPrecheck(line2) == Fen.FenNormal
    requires Fen.Split(line1, ' ')[..4] == Fen.Split(line2, ' ')[..4]
    ensures SamePosition(StartGame(line1), StartGame(line2))
  {
    PrecheckFields(line1);
    PrecheckFields(line2);
    var f1, f2 := Fen.Split(line1, ' '), Fen.Split(line2, ' ');
    assert f1[0] == f2[0] && f1[1] == f2[1] && f1[2] == f2[2] && f1[3] == f2[3] by {
      assert f1[..4][0] == f1[0] && f1[..4][1] == f1[1] && f1[..4][2] == f1[2] && f1[..4][3] == f1[3];
      assert f2[..4][0] == f2[0] && f2[..4][1] == f2[1] && f2[..4][2] == f2[2] && f2[..4][3] == f2[3];
    }
    assert StartBoard(line1) == StartBoard(line2);
  }

  /** Records that agree field by field on their first four fields. */
  lemma FirstFourEqual(f1: seq<string>, f2: seq<string>)
    requires |f1| == 6 && |f2| == 6
    requires f1[0] == f2[0] && f1[1] == f2[1] && f1[2] == f2[2] && f1[3] == f2[3]
    ensures f1[..4] == f2[..4]
  {
  }

  /** `__eq__` on games started from canonical records compares exactly the
      first four fields of the records: two such games are equal if and only
      if the records agree on board, side to move, castling and en passant,
      whatever their clocks. */
  lemma SamePositionIffSameFields(line1: string, line2: string)
    requires Fen.FenPrecheck(line1) == Fen.FenNormal && Fen.CanonicalFen(line1)
    requires Fen.FenPrecheck(line2) == Fen.FenNormal && Fen.CanonicalFen(line2)
    ensures SamePosition(StartGame(line1), StartGame(line2)) <==>
      Fen.Split(line1, ' ')[..4] == Fen.Split(line2, ' ')[..4]
  {
    var f1, f2 := Fen.Split(line1, ' '), Fen.Split(line2, ' ');
    if f1[..4] == f2[..4] {
      SameFieldsSamePosition(line1, line2);
    } else {
      PositionFields(line1);
      PositionFields(line2);
      if SamePosition(StartGame(line1), StartGame(line2)) {
        FirstFourEqual(f1, f2);
      }
    }
  }
}
