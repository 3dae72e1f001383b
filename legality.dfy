/** What the move lists of `get_legal_moves` guarantee: every move listed
    starts on a piece of the side to move, and either passed the trial of
    `make_check_and_add_move` (the mover's king stands on the board, is not
    attacked and does not touch the other king once the move is made) or is
    a castling move of the king from its home square (castling is listed
    without a trial; its attack tests are part of `CastleShort` and
    `CastleLong`). */
module Legality {
  import opened Chess
  import opened Attack
  import opened Rules

  /** A castling move of `white` as `get_king_moves` lists it: its king
      goes from e1 (e8) two files along its home row. */
  predicate CastlingShape(b: Board, white: bool, m: Move)
    requires IsBoard(b)
  {
    var y := HomeRow(white);
    m.orig == Square(4, y) && (m.dest == Square(6, y) || m.dest == Square(2, y)) && At(b, m.orig) == KingOf(white)
  }

  /** A move the generator may list: from a piece of the side to move,
      either an ordinary move onto a square without an own piece that
      passes its trial, an en passant capture of a pawn that passes its
      trial, or a castling move of the king. */
  predicate Sound(b: Board, white: bool, m: Move)
    requires IsBoard(b)
  {
    OnBoard(m.orig) && OnBoard(m.dest) && Own(white, At(b, m.orig)) &&
    ((TrialFits(b, white, m, false) && TrialOk(b, white, m, false) && !Own(white, At(b, m.dest))) ||
     (TrialFits(b, white, m, true) && TrialOk(b, white, m, true) && At(b, m.orig) == PawnOf(white)) ||
     CastlingShape(b, white, m))
  }

  predicate AllSound(b: Board, white: bool, ms: seq<Move>)
    requires IsBoard(b)
  {
    forall m :: m in ms ==> Sound(b, white, m)
  }

  /** What one trial appends is sound. */
  lemma TriedSound(b: Board, white: bool, m: Move, ep: bool)
    requires TrialFits(b, white, m, ep) && Own(white, At(b, m.orig))
    requires ep ==> At(b, m.orig) == PawnOf(white)
    requires !ep ==> !Own(white, At(b, m.dest))
    ensures AllSound(b, white, Tried(b, white, m, ep))
  {
  }

  // ---------------------------------------------------------------------
  // Queens, bishops, rooks

  lemma {:induction false} RaySound(b: Board, white: bool, s: Square, dx: int, dy: int, k: int)
    requires IsBoard(b) && OnBoard(s) && 1 <= k && Own(white, At(b, s))
    ensures AllSound(b, white, RayMoves(b, white, s, dx, dy, k))
    decreases 8 - k
  {
    if k <= 7 {
      var t := Step(s, dx, dy, k);
      if OnBoard(t) && (At(b, t) == ' ' || Enemy(white, At(b, t))) {
        TriedSound(b, white, Move(s, t), false);
      }
      RaySound(b, white, s, dx, dy, k + 1);
    }
  }

  lemma SliderRangeSound(b: Board, white: bool, s: Square, kind: Slider)
    requires IsBoard(b) && OnBoard(s) && Own(white, At(b, s))
    ensures AllSound(b, white, SliderRange(b, white, s, kind))
  {
    VerticalSound(b, white, s);
    HorizontalSound(b, white, s);
    DiagonalSound(b, white, s);
  }

  lemma VerticalSound(b: Board, white: bool, s: Square)
    requires IsBoard(b) && OnBoard(s) && Own(white, At(b, s))
    ensures AllSound(b, white, VerticalMoves(b, white, s))
  {
    RaySound(b, white, s, 0, -1, 1);
    RaySound(b, white, s, 0, 1, 1);
  }

  lemma HorizontalSound(b: Board, white: bool, s: Square)
    requires IsBoard(b) && OnBoard(s) && Own(white, At(b, s))
    ensures AllSound(b, white, HorizontalMoves(b, white, s))
  {
    RaySound(b, white, s, -1, 0, 1);
    RaySound(b, white, s, 1, 0, 1);
  }

  lemma DiagonalSound(b: Board, white: bool, s: Square)
    requires IsBoard(b) && OnBoard(s) && Own(white, At(b, s))
    ensures AllSound(b, white, DiagonalMoves(b, white, s))
  {
    RaySound(b, white, s, -1, -1, 1);
    RaySound(b, white, s, -1, 1, 1);
    RaySound(b, white, s, 1, -1, 1);
    RaySound(b, white, s, 1, 1, 1);
  }

  lemma {:induction false} SliderRangesSound(b: Board, white: bool, starts: seq<Square>, kind: Slider, c: char)
    requires IsBoard(b) && AllHold(b, starts, c) && Own(white, c)
    ensures AllOnBoard(starts) && AllSound(b, white, SliderRanges(b, white, starts, kind))
    decreases |starts|
  {
    if |starts| > 0 {
      var n := |starts| - 1;
      SliderRangesSound(b, white, starts[..n], kind, c);
      SliderRangeSound(b, white, starts[n], kind);
    }
  }

  /** Every queen, bishop and rook move listed is sound. */
  lemma SliderMovesSound(b: Board, white: bool)
    requires IsBoard(b)
    ensures AllSound(b, white, SliderMoves(b, white))
  {
    SliderRangesSound(b, white, Locate(b, QueenLetter(white)), QueenSlider, QueenLetter(white));
    SliderRangesSound(b, white, Locate(b, BishopLetter(white)), BishopSlider, BishopLetter(white));
    SliderRangesSound(b, white, Locate(b, RookLetter(white)), RookSlider, RookLetter(white));
  }

  // ---------------------------------------------------------------------
  // Knights

  lemma JumpSound(b: Board, white: bool, s: Square, i: int, j: int)
    requires IsBoard(b) && OnBoard(s) && Own(white, At(b, s))
    ensures AllSound(b, white, Jump(b, white, s, i, j))
  {
    var t := Square(s.x + i, s.y + j);
    if Abs(i) != Abs(j) && OnBoard(t) && KnightTarget(white, At(b, t)) {
      TriedSound(b, white, Move(s, t), false);
    }
  }

  lemma {:induction false} JumpRowSound(b: Board, white: bool, s: Square, i: int, n: nat)
    requires IsBoard(b) && OnBoard(s) && n <= |Jumps| && Own(white, At(b, s))
    ensures AllSound(b, white, JumpRow(b, white, s, i, n))
  {
    if n > 0 {
      JumpRowSound(b, white, s, i, n - 1);
      JumpSound(b, white, s, i, Jumps[n - 1]);
    }
  }

  lemma {:induction false} JumpRowsSound(b: Board, white: bool, s: Square, n: nat)
    requires IsBoard(b) && OnBoard(s) && n <= |Jumps| && Own(white, At(b, s))
    ensures AllSound(b, white, JumpRows(b, white, s, n))
  {
    if n > 0 {
      JumpRowsSound(b, white, s, n - 1);
      JumpRowSound(b, white, s, Jumps[n - 1], |Jumps|);
    }
  }

  lemma {:induction false} KnightRangesSound(b: Board, white: bool, starts: seq<Square>)
    requires IsBoard(b) && AllHold(b, starts, KnightLetter(white))
    ensures AllOnBoard(starts) && AllSound(b, white, KnightRanges(b, white, starts))
    decreases |starts|
  {
    if |starts| > 0 {
      var n := |starts| - 1;
      KnightRangesSound(b, white, starts[..n]);
      JumpRowsSound(b, white, starts[n], |Jumps|);
    }
  }

  /** Every knight move listed is sound. */
  lemma KnightMovesSound(b: Board, white: bool)
    requires IsBoard(b)
    ensures AllSound(b, white, KnightMoves(b, white))
  {
    KnightRangesSound(b, white, Locate(b, KnightLetter(white)));
  }

  // ---------------------------------------------------------------------
  // King

  lemma KingStepSound(b: Board, white: bool, k: Square, i: int, j: int)
    requires IsBoard(b) && OnBoard(k) && At(b, k) == KingOf(white)
    ensures AllSound(b, white, KingStep(b, white, k, i, j))
  {
    var t := Square(k.x + i, k.y + j);
    if (i != 0 || j != 0) && OnBoard(t) && KingTarget(white, At(b, t)) {
      TriedSound(b, white, Move(k, t), false);
    }
  }

  lemma {:induction false} KingRowSound(b: Board, white: bool, k: Square, i: int, n: nat)
    requires IsBoard(b) && OnBoard(k) && n <= |KingSteps| && At(b, k) == KingOf(white)
    ensures AllSound(b, white, KingRow(b, white, k, i, n))
  {
    if n > 0 {
      KingRowSound(b, white, k, i, n - 1);
      KingStepSound(b, white, k, i, KingSteps[n - 1]);
    }
  }

  lemma {:induction false} KingRowsSound(b: Board, white: bool, k: Square, n: nat)
    requires IsBoard(b) && OnBoard(k) && n <= |KingSteps| && At(b, k) == KingOf(white)
    ensures AllSound(b, white, KingRows(b, white, k, n))
  {
    if n > 0 {
      KingRowsSound(b, white, k, n - 1);
      KingRowSound(b, white, k, KingSteps[n - 1], |KingSteps|);
    }
  }

  /** King side castling lists nothing or the king's two-file step. */
  lemma CastleShortShape(b: Board, white: bool, castling: seq<bool>, k: Square)
    requires IsBoard(b) && |castling| == 4 && OnBoard(k)
    ensures CastleShort(b, white, castling, k) == [] || CastleShort(b, white, castling, k) == [Move(Square(4, k.y), Square(6, k.y))]
  {
  }

  /** Queen side castling lists nothing or the king's two-file step. */
  lemma CastleLongShape(b: Board, white: bool, castling: seq<bool>, k: Square)
    requires IsBoard(b) && |castling| == 4 && OnBoard(k)
    ensures CastleLong(b, white, castling, k) == [] || CastleLong(b, white, castling, k) == [Move(Square(4, k.y), Square(2, k.y))]
  {
  }

  /** Castling lists only the king's two-file steps from `k`. */
  lemma CastlingMoves(b: Board, white: bool, castling: seq<bool>, k: Square)
    requires IsBoard(b) && |castling| == 4 && OnBoard(k)
    ensures forall m :: m in CastleShort(b, white, castling, k) + CastleLong(b, white, castling, k) ==>
      m.orig == Square(4, k.y) && (m.dest == Square(6, k.y) || m.dest == Square(2, k.y))
  {
    CastleShortShape(b, white, castling, k);
    CastleLongShape(b, white, castling, k);
  }

  /** King side castling is listed only with its right held and f and g
      empty, f being where the rook lands: the castling clause of what
      `make_move` needs to keep its counts (`CountSafe`). */
  lemma CastleShortNeedsRight(b: Board, white: bool, castling: seq<bool>, k: Square)
    requires IsBoard(b) && |castling| == 4 && OnBoard(k)
    ensures CastleShort(b, white, castling, k) != [] ==>
      CastleShort(b, white, castling, k) == [Move(Square(4, k.y), Square(6, k.y))] &&
      castling[if white then 0 else 2] && b[k.y][5] == ' ' && b[k.y][6] == ' '
  {
  }

  /** Queen side castling is listed only with its right held and b, c and d
      empty, d being where the rook lands. */
  lemma CastleLongNeedsRight(b: Board, white: bool, castling: seq<bool>, k: Square)
    requires IsBoard(b) && |castling| == 4 && OnBoard(k)
    ensures CastleLong(b, white, castling, k) != [] ==>
      CastleLong(b, white, castling, k) == [Move(Square(4, k.y), Square(2, k.y))] &&
      castling[if white then 1 else 3] && b[k.y][1] == ' ' && b[k.y][2] == ' ' && b[k.y][3] == ' '
  {
  }

  /** Two-file steps of the king from its home square are sound. */
  lemma KingStepsFromHomeSound(b: Board, white: bool, k: Square, ms: seq<Move>)
    requires IsBoard(b) && k == Square(4, HomeRow(white)) && At(b, k) == KingOf(white)
    requires forall m :: m in ms ==> m.orig == Square(4, k.y) && (m.dest == Square(6, k.y) || m.dest == Square(2, k.y))
    ensures AllSound(b, white, ms)
  {
    forall m | m in ms
      ensures Sound(b, white, m)
    {
      assert CastlingShape(b, white, m);
    }
  }

  /** Every king move listed is sound, castling included. */
  lemma KingMovesSound(b: Board, white: bool, castling: seq<bool>)
    requires IsBoard(b) && |castling| == 4 && OnBoard(KingCoordinates(b, white))
    ensures AllSound(b, white, KingMoves(b, white, castling))
  {
    var k := KingCoordinates(b, white);
    KingRowsSound(b, white, k, |KingSteps|);
    if k == Square(4, HomeRow(white)) {
      CastlingMoves(b, white, castling, k);
      KingStepsFromHomeSound(b, white, k, CastleShort(b, white, castling, k) + CastleLong(b, white, castling, k));
    }
  }

  // ---------------------------------------------------------------------
  // Pawns

  lemma PawnMovesAtSound(b: Board, white: bool, ep: Option<Square>, s: Square)
    requires IsBoard(b) && OnBoard(s) && 0 <= s.y + Forward(white) <= 7 && At(b, s) == PawnOf(white)
    ensures AllSound(b, white, PawnMovesAt(b, white, ep, s))
  {
    PawnAdvanceSound(b, white, s);
    PawnDoubleStepSound(b, white, s);
    PawnCaptureSound(b, white, s, -1);
    PawnCaptureSound(b, white, s, 1);
    EnPassantSound(b, white, ep, s);
  }

  lemma PawnAdvanceSound(b: Board, white: bool, s: Square)
    requires IsBoard(b) && OnBoard(s) && 0 <= s.y + Forward(white) <= 7 && At(b, s) == PawnOf(white)
    ensures AllSound(b, white, PawnAdvance(b, white, s))
  {
    var t := Square(s.x, s.y + Forward(white));
    if At(b, t) == ' ' {
      TriedSound(b, white, Move(s, t), false);
    }
  }

  lemma PawnDoubleStepSound(b: Board, white: bool, s: Square)
    requires IsBoard(b) && OnBoard(s) && At(b, s) == PawnOf(white)
    ensures AllSound(b, white, PawnDoubleStep(b, white, s))
  {
    var t := Square(s.x, PawnDouble(white));
    if At(b, t) == ' ' {
      TriedSound(b, white, Move(s, t), false);
    }
  }

  lemma PawnCaptureSound(b: Board, white: bool, s: Square, dx: int)
    requires IsBoard(b) && OnBoard(s) && 0 <= s.y + Forward(white) <= 7 && At(b, s) == PawnOf(white)
    ensures AllSound(b, white, PawnCapture(b, white, s, dx))
  {
    var t := Square(s.x + dx, s.y + Forward(white));
    if OnBoard(t) && Enemy(white, At(b, t)) {
      TriedSound(b, white, Move(s, t), false);
    }
  }

  lemma EnPassantSound(b: Board, white: bool, ep: Option<Square>, s: Square)
    requires IsBoard(b) && OnBoard(s) && 0 <= s.y + Forward(white) <= 7 && At(b, s) == PawnOf(white)
    ensures AllSound(b, white, EnPassantMoves(b, white, ep, s))
  {
    if ep.Some? && OnBoard(ep.value) && ep.value.y == s.y + Forward(white) && s.y == PawnCaptureRow(white) {
      TriedSound(b, white, Move(s, ep.value), true);
    }
  }

  lemma {:induction false} PawnRangesSound(b: Board, white: bool, ep: Option<Square>, starts: seq<Square>)
    requires IsBoard(b) && PawnSquares(starts, white) && AllHold(b, starts, PawnOf(white))
    ensures AllSound(b, white, PawnRanges(b, white, ep, starts))
    decreases |starts|
  {
    if |starts| > 0 {
      var n := |starts| - 1;
      PawnRangesSound(b, white, ep, starts[..n]);
      PawnMovesAtSound(b, white, ep, starts[n]);
    }
  }

  /** Every pawn move listed is sound, en passant included. */
  lemma PawnMovesSound(b: Board, white: bool, ep: Option<Square>)
    requires IsBoard(b) && PawnsCanAdvance(b, white)
    ensures AllSound(b, white, PawnMoves(b, white, ep))
  {
    PawnsOffLastRow(b, white);
    PawnRangesSound(b, white, ep, Locate(b, PawnOf(white)));
  }

  /** Every move `get_legal_moves` lists moves a piece of the side to move,
      and every move but castling passed its trial: after it the mover's
      king is on the board, not attacked, and not next to the other king. */
  lemma LegalMovesSound(b: Board, white: bool, castling: seq<bool>, ep: Option<Square>)
    requires CanGenerate(b, white, castling)
    ensures AllSound(b, white, LegalMoves(b, white, castling, ep))
  {
    KingMovesSound(b, white, castling);
    SliderMovesSound(b, white);
    KnightMovesSound(b, white);
    PawnMovesSound(b, white, ep);
  }
}
