/** The class `Position` of board.py: the mutable game state and the
    methods that scan, generate and apply moves on it. Each method is proved
    equal to the function of module Rules (or Attack) that specifies it. */
module Board {
  import opened Chess
  import opened Attack
  import opened Rules
  import Fen
  import Pgn

  /** Every square of the ray before distance `m` is clear. */
  ghost predicate Open(b: Board, s: Square, dx: int, dy: int, m: int)
    requires IsBoard(b)
  {
    forall i :: 1 <= i < m ==> Clear(b, s, dx, dy, i)
  }

  /** No attacker stands on the open part of a ray. */
  lemma OpenHoldsNone(b: Board, s: Square, dx: int, dy: int, m: int, p1: char, p2: char)
    requires IsBoard(b) && p1 != ' ' && p2 != ' ' && Open(b, s, dx, dy, m)
    ensures forall j :: 1 <= j < m ==> !Holds(b, s, dx, dy, j, p1, p2)
  {
    forall j | 1 <= j < m
      ensures !Holds(b, s, dx, dy, j, p1, p2)
    {
      assert Clear(b, s, dx, dy, j);
    }
  }

  /** What one ray of `horizontal_or_vertical_attack` knows before distance
      `m`: while not blocked every earlier square is clear; once blocked the
      ray cannot hit. */
  ghost predicate RayKnown(b: Board, s: Square, dx: int, dy: int, m: int, blocked: bool, p1: char, p2: char)
    requires IsBoard(b)
  {
    (!blocked ==> Open(b, s, dx, dy, m)) && (blocked ==> !RayHits(b, s, dx, dy, 1, p1, p2))
  }

  /** One look at distance `m` of a ray, given whether that square is on the
      board and what it holds: an attacker on an open ray means a hit;
      otherwise the ray is known one step further, blocked when the square
      holds another piece. */
  lemma RayLook(b: Board, s: Square, dx: int, dy: int, m: int, blocked: bool, p1: char, p2: char, on: bool, c: char)
    requires IsBoard(b) && 1 <= m <= 7 && p1 != ' ' && p2 != ' '
    requires RayKnown(b, s, dx, dy, m, blocked, p1, p2)
    requires on == OnBoard(Step(s, dx, dy, m)) && (on ==> c == At(b, Step(s, dx, dy, m)))
    ensures on && !blocked && (c == p1 || c == p2) ==> RayHits(b, s, dx, dy, 1, p1, p2)
    ensures !(on && !blocked && (c == p1 || c == p2)) ==>
      RayKnown(b, s, dx, dy, m + 1, blocked || (on && c != ' '), p1, p2)
  {
    if !blocked {
      RayHitsIff(b, s, dx, dy, 1, p1, p2);
      if on && (c == p1 || c == p2) {
        assert Holds(b, s, dx, dy, m, p1, p2);
      } else if on && c != ' ' {
        OpenHoldsNone(b, s, dx, dy, m, p1, p2);
        assert !Clear(b, s, dx, dy, m) && !Holds(b, s, dx, dy, m, p1, p2);
      } else {
        assert Clear(b, s, dx, dy, m);
      }
    }
  }

  /** A ray known to the end does not hit. */
  lemma RayKnownToEnd(b: Board, s: Square, dx: int, dy: int, blocked: bool, p1: char, p2: char)
    requires IsBoard(b) && p1 != ' ' && p2 != ' ' && RayKnown(b, s, dx, dy, 8, blocked, p1, p2)
    ensures !RayHits(b, s, dx, dy, 1, p1, p2)
  {
    if !blocked {
      RayHitsIff(b, s, dx, dy, 1, p1, p2);
      OpenHoldsNone(b, s, dx, dy, 8, p1, p2);
    }
  }

  /** Appending is associative; stated once so that the methods below need
      not rediscover it element by element. */
  lemma AppendAssoc<T>(a: seq<T>, b: seq<T>, c: seq<T>)
    ensures a + b + c == a + (b + c)
  {
  }

  lemma AppendAssoc4<T>(a: seq<T>, b: seq<T>, c: seq<T>, d: seq<T>)
    ensures a + b + c + d == a + (b + c + d)
  {
  }

  /** One more cell of a row scan: the row prefix one longer adds the
      square when the cell holds `c`. */
  lemma LocateInStep(row: seq<char>, x: int, y: int, c: char)
    requires 0 <= x < |row|
    ensures LocateIn(row[..x + 1], y, c) == LocateIn(row[..x], y, c) + (if row[x] == c then [Square(x, y)] else [])
  {
    assert row[..x + 1][..x] == row[..x];
  }

  /** One more row of a board scan. */
  lemma LocateRowsStep(rows: seq<seq<char>>, y: int, c: char)
    requires 0 <= y < |rows|
    ensures LocateRows(rows[..y + 1], c) == LocateRows(rows[..y], c) + LocateIn(rows[y], y, c)
  {
    assert rows[..y + 1][..y] == rows[..y];
  }

  /** One more start square of a list of slider ranges. */
  lemma SliderRangesStep(b: Board, white: bool, starts: seq<Square>, i: int, kind: Slider)
    requires IsBoard(b) && AllOnBoard(starts) && 0 <= i < |starts|
    ensures AllOnBoard(starts[..i]) && AllOnBoard(starts[..i + 1])
    ensures SliderRanges(b, white, starts[..i + 1], kind) == SliderRanges(b, white, starts[..i], kind) + SliderRange(b, white, starts[i], kind)
  {
    assert starts[..i + 1][..i] == starts[..i];
  }

  /** One more knight of a list of knight ranges. */
  lemma KnightRangesStep(b: Board, white: bool, starts: seq<Square>, i: int)
    requires IsBoard(b) && AllOnBoard(starts) && 0 <= i < |starts|
    ensures AllOnBoard(starts[..i]) && AllOnBoard(starts[..i + 1])
    ensures KnightRanges(b, white, starts[..i + 1]) == KnightRanges(b, white, starts[..i]) + JumpRows(b, white, starts[i], |Jumps|)
  {
    assert starts[..i + 1][..i] == starts[..i];
  }

  /** One more pawn of a list of pawn moves. */
  lemma PawnRangesStep(b: Board, white: bool, ep: Option<Square>, starts: seq<Square>, i: int)
    requires IsBoard(b) && PawnSquares(starts, white) && 0 <= i < |starts|
    ensures PawnSquares(starts[..i], white) && PawnSquares(starts[..i + 1], white)
    ensures PawnRanges(b, white, ep, starts[..i + 1]) == PawnRanges(b, white, ep, starts[..i]) + PawnMovesAt(b, white, ep, starts[i])
  {
    assert starts[..i + 1][..i] == starts[..i];
  }

  /** One step of a range scan at distance `j`, given whether the square is
      on the board and what it holds. */
  lemma RayMovesStep(b: Board, white: bool, s: Square, dx: int, dy: int, j: int, t: Square)
    requires IsBoard(b) && OnBoard(s) && 1 <= j <= 7 && t == Step(s, dx, dy, j)
    ensures !OnBoard(t) ==> RayMoves(b, white, s, dx, dy, j) == RayMoves(b, white, s, dx, dy, j + 1)
    ensures OnBoard(t) && At(b, t) == ' ' ==>
      RayMoves(b, white, s, dx, dy, j) == Tried(b, white, Move(s, t), false) + RayMoves(b, white, s, dx, dy, j + 1)
    ensures OnBoard(t) && Enemy(white, At(b, t)) ==> RayMoves(b, white, s, dx, dy, j) == Tried(b, white, Move(s, t), false)
    ensures OnBoard(t) && Own(white, At(b, t)) ==> RayMoves(b, white, s, dx, dy, j) == []
    ensures OnBoard(t) && At(b, t) != ' ' && !Enemy(white, At(b, t)) && !Own(white, At(b, t)) ==>
      RayMoves(b, white, s, dx, dy, j) == RayMoves(b, white, s, dx, dy, j + 1)
  {
  }

  class Position {
    /** The board, row 0 being rank 8. */
    var pos: Board
    /** True when white is to move. */
    var turn: bool
    /** White king side, white queen side, black king side, black queen side. */
    var castling: seq<bool>
    var enPassant: Option<Square>
    var halfmove: int
    var fullmove: int
    var pieceCount: map<string, int>
    var pgn: string
    var currentFen: string

    /** The shape every method relies on: 8x8 cells of piece letters or
        ' ', four castling rights, the fourteen count keys. */
    predicate Valid()
      reads this
    {
      ValidCells(pos) && |castling| == 4 && pieceCount.Keys == CountKeys
    }

    /** The state as a value of `Rules.Game`. */
    function Snapshot(): Game
      reads this
    {
      Game(pos, turn, castling, enPassant, halfmove, fullmove, pieceCount, pgn)
    }

    // -------------------------------------------------------------------
    // __init__

    /** The values `__init__` reads from a line that has passed the
        structural checks of `check_fen`: the counts start at zero and are
        filled in while the board is decoded, the other fields come from the
        line's fields, `current_fen` is written back from them and the PGN
        record starts with its header. */
    static method ReadFen(line: string) returns (g: Game, fen: string)
      requires Fen.FenPrecheck(line) == Fen.FenNormal
      ensures g == StartGame(line) && fen == StartFen(line)
    {
      PrecheckShape(line);
      var board, counts := DecodePosition(line);
      var fields := Fen.Split(line, ' ');
      var white := Fen.GetTurn(fields[1]);
      var rights := Fen.CastlingOptions[fields[2]];
      var ep := Fen.GetEnPassant(fields[3]);
      var half := Fen.ParseInt(fields[4]).value;
      var full := Fen.ParseInt(fields[5]).value;
      fen := Fen.GetFen(board, white, rights, ep, half, full);
      g := Game(board, white, rights, ep, half, full, counts, Pgn.SetUpPgn());
    }

    /** `get_position` called on the zero counts: the decoded board and its
        recount. */
    static method DecodePosition(line: string) returns (board: Board, counts: map<string, int>)
      requires forall i :: 0 <= i < |Fen.BoardRanks(line)| ==> Fen.DecodableRank(Fen.BoardRanks(line)[i])
      ensures board == StartBoard(line) && counts == Recount(board)
    {
      var zeros := map["K" := 0, "Q" := 0, "R" := 0, "dB" := 0, "lB" := 0, "N" := 0, "P" := 0,
                       "k" := 0, "q" := 0, "r" := 0, "db" := 0, "lb" := 0, "n" := 0, "p" := 0];
      assert zeros.Keys == CountKeys && forall k :: k in zeros ==> zeros[k] == 0;
      board, counts := Fen.GetPosition(line, zeros);
      RecountUnique(board, counts);
    }

    /** `Position(line, white, black)`: the fields `ReadFen` reads. */
    constructor (line: string)
      requires Fen.FenPrecheck(line) == Fen.FenNormal
      ensures Snapshot() == StartGame(line) && currentFen == StartFen(line)
    {
      var g, fen := ReadFen(line);
      pos, pieceCount, turn, castling, enPassant := g.pos, g.pieceCount, g.turn, g.castling, g.enPassant;
      halfmove, fullmove, currentFen, pgn := g.halfmove, g.fullmove, fen, g.pgn;
    }

    // -------------------------------------------------------------------
    // __eq__ and __ne__

    /** `__eq__`: another `Position` (not `null`) with the same board, side
        to move, castling rights and en passant square. */
    method Equals(other: Position?) returns (same: bool)
      ensures same <==> other != null && SamePosition(Snapshot(), other.Snapshot())
    {
      if other != null && other.pos == pos && other.turn == turn && other.castling == castling
         && other.enPassant == enPassant {
        return true;
      } else {
        return false;
      }
    }

    /** `__ne__`: the negation of `__eq__`. */
    method NotEquals(other: Position?) returns (different: bool)
      ensures different <==> other == null || !SamePosition(Snapshot(), other.Snapshot())
    {
      var same := Equals(other);
      return !same;
    }

    // -------------------------------------------------------------------
    // get_king_coordinates

    /** `get_king_coordinates`: every row holding the king overwrites the
        answer, so the last such row wins. */
    method GetKingCoordinates() returns (s: Square)
      requires IsBoard(pos)
      ensures s == KingCoordinates(pos, turn)
    {
      var king := if turn then 'K' else 'k';
      var x: int, y: int := -1, -1;
      var i := 0;
      while i < |pos|
        invariant 0 <= i <= |pos|
        invariant Square(x, y) == (match Fen.KingPlace(pos, i, king)
                                   case None => Square(-1, -1)
                                   case Some(p) => Square(p.0, p.1))
      {
        var rank := pos[i];
        if king in rank {
          x := Fen.IndexOf(rank, king);
          y := Fen.IndexOf(pos, rank);
        }
        i := i + 1;
      }
      s := Square(x, y);
    }

    // -------------------------------------------------------------------
    // is_attacked

    /** One ray's look at distance `m` in `horizontal_or_vertical_attack`:
        a square on the board of a ray not yet blocked is read; an enemy rook
        or queen there is a hit, any other piece blocks the ray. */
    method LookAlong(s: Square, dx: int, dy: int, m: int, blocked: bool) returns (hit: bool, nowBlocked: bool)
      requires IsBoard(pos) && 1 <= m <= 7
      requires RayKnown(pos, s, dx, dy, m, blocked, EnemyRook(turn), EnemyQueen(turn))
      ensures hit ==> RayHits(pos, s, dx, dy, 1, EnemyRook(turn), EnemyQueen(turn))
      ensures !hit ==> RayKnown(pos, s, dx, dy, m + 1, nowBlocked, EnemyRook(turn), EnemyQueen(turn))
    {
      var queen, rook := EnemyQueen(turn), EnemyRook(turn);
      var xNew, yNew := s.x + dx * m, s.y + dy * m;
      var on := 0 <= xNew <= 7 && 0 <= yNew <= 7;
      RayLook(pos, s, dx, dy, m, blocked, rook, queen, on, if on then pos[yNew][xNew] else ' ');
      hit, nowBlocked := false, blocked;
      if on && !blocked {
        var c := pos[yNew][xNew];
        if c == rook || c == queen {
          hit := true;
        } else if c != ' ' && c != rook && c != queen {
          nowBlocked := true;
        }
      }
    }

    /** `horizontal_or_vertical_attack`: the four rays scanned together, one
        distance at a time, each stopped by a `blocked` flag at its first
        non-empty square. */
    method HorizontalOrVerticalAttack(s: Square) returns (attacked: bool)
      requires IsBoard(pos) && OnBoard(s)
      ensures attacked == OrthogonalAttack(pos, turn, s)
    {
      var queen, rook := EnemyQueen(turn), EnemyRook(turn);
      var blockedHn, blockedHp, blockedVn, blockedVp := false, false, false, false;
      var m := 1;
      while m <= 7
        invariant 1 <= m <= 8
        invariant RayKnown(pos, s, -1, 0, m, blockedHn, rook, queen)
        invariant RayKnown(pos, s, 1, 0, m, blockedHp, rook, queen)
        invariant RayKnown(pos, s, 0, -1, m, blockedVn, rook, queen)
        invariant RayKnown(pos, s, 0, 1, m, blockedVp, rook, queen)
      {
        var hit;
        hit, blockedHn := LookAlong(s, -1, 0, m, blockedHn);
        if hit {
          return true;
        }
        hit, blockedHp := LookAlong(s, 1, 0, m, blockedHp);
        if hit {
          return true;
        }
        hit, blockedVn := LookAlong(s, 0, -1, m, blockedVn);
        if hit {
          return true;
        }
        hit, blockedVp := LookAlong(s, 0, 1, m, blockedVp);
        if hit {
          return true;
        }
        m := m + 1;
      }
      RayKnownToEnd(pos, s, -1, 0, blockedHn, rook, queen);
      RayKnownToEnd(pos, s, 1, 0, blockedHp, rook, queen);
      RayKnownToEnd(pos, s, 0, -1, blockedVn, rook, queen);
      RayKnownToEnd(pos, s, 0, 1, blockedVp, rook, queen);
      return false;
    }

    /** One diagonal of `diagonal_attack`: distances 1 to 7, squares off
        the board passed over, the first piece met deciding. */
    method DiagonalRay(s: Square, dx: int, dy: int) returns (hit: bool)
      requires IsBoard(pos)
      ensures hit == RayHits(pos, s, dx, dy, 1, EnemyQueen(turn), EnemyBishop(turn))
    {
      var queen, bishop := EnemyQueen(turn), EnemyBishop(turn);
      var k := 1;
      while k <= 7
        invariant 1 <= k <= 8
        invariant RayHits(pos, s, dx, dy, 1, queen, bishop) == RayHits(pos, s, dx, dy, k, queen, bishop)
      {
        var xNew, yNew := s.x + dx * k, s.y + dy * k;
        if 0 <= xNew <= 7 && 0 <= yNew <= 7 {
          var c := pos[yNew][xNew];
          if c != ' ' && c != queen && c != bishop {
            return false;
          } else if c == queen || c == bishop {
            return true;
          }
        }
        k := k + 1;
      }
      return false;
    }

    /** `diagonal_attack`: the four diagonals, file step outer and row step
        inner, each scanned outwards from `s`. */
    method DiagonalAttackScan(s: Square) returns (attacked: bool)
      requires IsBoard(pos)
      ensures attacked == DiagonalAttack(pos, turn, s)
    {
      attacked := DiagonalRay(s, -1, -1);
      if attacked {
        return;
      }
      attacked := DiagonalRay(s, -1, 1);
      if attacked {
        return;
      }
      attacked := DiagonalRay(s, 1, -1);
      if attacked {
        return;
      }
      attacked := DiagonalRay(s, 1, 1);
    }

    /** `knight_attack`: i and j drawn from [-1, 1, -2, 2], the pairs whose
        sizes differ tried, the first enemy knight found answering. */
    method KnightAttackScan(s: Square) returns (attacked: bool)
      requires IsBoard(pos)
      ensures attacked == KnightAttack(pos, turn, s)
    {
      KnightHitsCover(pos, turn, s);
      var knight := EnemyKnight(turn);
      var p := 0;
      while p < 4
        invariant 0 <= p <= 4
        invariant forall p', q :: 0 <= p' < p && 0 <= q < 4 ==> !KnightHit(pos, turn, s, KnightSteps[p'], KnightSteps[q])
      {
        var q := 0;
        while q < 4
          invariant 0 <= q <= 4
          invariant forall q' :: 0 <= q' < q ==> !KnightHit(pos, turn, s, KnightSteps[p], KnightSteps[q'])
        {
          var i, j := KnightSteps[p], KnightSteps[q];
          if i * i != j * j {
            var xNew, yNew := s.x + i, s.y + j;
            if 0 <= xNew <= 7 && 0 <= yNew <= 7 {
              if pos[yNew][xNew] == knight {
                assert KnightHit(pos, turn, s, KnightSteps[p], KnightSteps[q]);
                return true;
              }
            }
          }
          q := q + 1;
        }
        p := p + 1;
      }
      return false;
    }

    /** `pawn_attack`: the two squares diagonally ahead of `s` from the
        enemy's side, left file first. */
    method PawnAttackScan(s: Square) returns (attacked: bool)
      requires IsBoard(pos)
      ensures attacked == PawnAttack(pos, turn, s)
    {
      var pawn := EnemyPawn(turn);
      var i := if turn then -1 else 1;
      if 0 <= s.y + i <= 7 && 0 <= s.x - 1 <= 7 {
        if pos[s.y + i][s.x - 1] == pawn {
          return true;
        }
      }
      if 0 <= s.y + i <= 7 && 0 <= s.x + 1 <= 7 {
        if pos[s.y + i][s.x + 1] == pawn {
          return true;
        }
      }
      return false;
    }

    /** `is_attacked`: the orthogonal scan, then the diagonal, knight and
        pawn scans, the first that finds an attacker answering. */
    method IsAttacked(s: Square) returns (attacked: bool)
      requires IsBoard(pos) && OnBoard(s)
      ensures attacked == Attacked(pos, turn, s)
    {
      attacked := HorizontalOrVerticalAttack(s);
      if attacked {
        return;
      }
      attacked := DiagonalAttackScan(s);
      if attacked {
        return;
      }
      attacked := KnightAttackScan(s);
      if attacked {
        return;
      }
      attacked := PawnAttackScan(s);
    }

    // -------------------------------------------------------------------
    // make_check_and_add_move

    /** `kings_apart`: the eight neighbours of `s` are scanned column by
        column; the first one on the board holding the other king answers
        false. */
    method AreKingsApart(s: Square) returns (apart: bool)
      requires IsBoard(pos)
      ensures apart == KingsApart(pos, turn, s)
    {
      var i := -1;
      while i <= 1
        invariant -1 <= i <= 2
        invariant forall i', j' :: -1 <= i' < i && -1 <= j' <= 1 ==> !EnemyKingAt(pos, turn, s, i', j')
      {
        var j := -1;
        while j <= 1
          invariant -1 <= j <= 2
          invariant forall i', j' :: -1 <= i' < i && -1 <= j' <= 1 ==> !EnemyKingAt(pos, turn, s, i', j')
          invariant forall j' :: -1 <= j' < j ==> !EnemyKingAt(pos, turn, s, i, j')
        {
          if (i != 0 || j != 0) && 0 <= s.x + i <= 7 && 0 <= s.y + j <= 7 && pos[s.y + j][s.x + i] == KingOf(!turn) {
            assert EnemyKingAt(pos, turn, s, i, j);
            return false;
          }
          j := j + 1;
        }
        i := i + 1;
      }
      return true;
    }

    /** `make_check_and_add_move`: the move is made on the board (and the
        pawn captured en passant removed), kept in `moves` when the mover's
        king is then neither attacked nor next to the other king, and the
        board is put back. */
    method MakeCheckAndAddMove(start: Square, end: Square, ep: bool, moves: seq<Move>) returns (out: seq<Move>)
      requires TrialFits(pos, turn, Move(start, end), ep)
      modifies this`pos
      ensures pos == old(pos)
      ensures out == moves + Tried(pos, turn, Move(start, end), ep)
    {
      var lastPos := pos;
      var piece := pos[start.y][start.x];
      pos := Put(pos, start, ' ');
      pos := Put(pos, end, piece);
      if ep {
        pos := Put(pos, Behind(turn, end), ' ');
      }
      assert pos == TrialBoard(lastPos, turn, Move(start, end), ep);
      var k := GetKingCoordinates();
      out := moves;
      if OnBoard(k) {
        var attacked := IsAttacked(k);
        if !attacked {
          var apart := AreKingsApart(k);
          if apart {
            out := moves + [Move(start, end)];
          }
        }
      }
      pos := lastPos;
    }

    // -------------------------------------------------------------------
    // The row-major scans for the pieces of the side to move

    /** The squares holding `letter`, row by row and left to right. */
    method FindPieces(letter: char) returns (found: seq<Square>)
      requires IsBoard(pos)
      ensures found == Locate(pos, letter)
    {
      found := [];
      var y := 0;
      while y < 8
        invariant 0 <= y <= 8
        invariant found == LocateRows(pos[..y], letter)
      {
        var rank := pos[y];
        ghost var before := found;
        var x := 0;
        while x < 8
          invariant 0 <= x <= 8
          invariant found == before + LocateIn(rank[..x], y, letter)
        {
          LocateInStep(rank, x, y, letter);
          if rank[x] == letter {
            AppendAssoc(before, LocateIn(rank[..x], y, letter), [Square(x, y)]);
            found := found + [Square(x, y)];
          } else {
            assert LocateIn(rank[..x], y, letter) + [] == LocateIn(rank[..x], y, letter);
          }
          x := x + 1;
        }
        assert rank[..8] == rank;
        LocateRowsStep(pos, y, letter);
        y := y + 1;
      }
      assert pos[..8] == pos;
    }

    /** The scan of `get_queen_bishop_rook_moves`: queens, bishops and rooks
        of the side to move collected in one pass. */
    method FindSliders() returns (queens: seq<Square>, bishops: seq<Square>, rooks: seq<Square>)
      requires IsBoard(pos)
      ensures queens == Locate(pos, QueenLetter(turn))
      ensures bishops == Locate(pos, BishopLetter(turn))
      ensures rooks == Locate(pos, RookLetter(turn))
    {
      var queen, bishop, rook := QueenLetter(turn), BishopLetter(turn), RookLetter(turn);
      queens, bishops, rooks := [], [], [];
      var y := 0;
      while y < 8
        invariant 0 <= y <= 8
        invariant queens == LocateRows(pos[..y], queen)
        invariant bishops == LocateRows(pos[..y], bishop)
        invariant rooks == LocateRows(pos[..y], rook)
      {
        var rank := pos[y];
        ghost var q0, b0, r0 := queens, bishops, rooks;
        var x := 0;
        while x < 8
          invariant 0 <= x <= 8
          invariant queens == q0 + LocateIn(rank[..x], y, queen)
          invariant bishops == b0 + LocateIn(rank[..x], y, bishop)
          invariant rooks == r0 + LocateIn(rank[..x], y, rook)
        {
          LocateInStep(rank, x, y, queen);
          LocateInStep(rank, x, y, bishop);
          LocateInStep(rank, x, y, rook);
          var item := rank[x];
          if item == queen {
            AppendAssoc(q0, LocateIn(rank[..x], y, queen), [Square(x, y)]);
            queens := queens + [Square(x, y)];
          } else {
            assert LocateIn(rank[..x], y, queen) + [] == LocateIn(rank[..x], y, queen);
          }
          if item == bishop {
            AppendAssoc(b0, LocateIn(rank[..x], y, bishop), [Square(x, y)]);
            bishops := bishops + [Square(x, y)];
          } else {
            assert LocateIn(rank[..x], y, bishop) + [] == LocateIn(rank[..x], y, bishop);
          }
          if item == rook {
            AppendAssoc(r0, LocateIn(rank[..x], y, rook), [Square(x, y)]);
            rooks := rooks + [Square(x, y)];
          } else {
            assert LocateIn(rank[..x], y, rook) + [] == LocateIn(rank[..x], y, rook);
          }
          x := x + 1;
        }
        assert rank[..8] == rank;
        LocateRowsStep(pos, y, queen);
        LocateRowsStep(pos, y, bishop);
        LocateRowsStep(pos, y, rook);
        y := y + 1;
      }
      assert pos[..8] == pos;
    }

    // -------------------------------------------------------------------
    // get_moves and the range scans

    /** `get_moves`: an empty square is tried, an enemy piece is tried and
        stops the ray, an own piece stops it; the answer says whether to
        stop. */
    method GetMoves(c: char, start: Square, t: Square, moves: seq<Move>) returns (out: seq<Move>, stop: bool)
      requires IsBoard(pos) && OnBoard(start) && OnBoard(t)
      modifies this`pos
      ensures pos == old(pos)
      ensures c == ' ' || Enemy(turn, c) ==> out == moves + Tried(pos, turn, Move(start, t), false)
      ensures c != ' ' && !Enemy(turn, c) ==> out == moves
      ensures stop <==> Enemy(turn, c) || Own(turn, c)
    {
      out, stop := moves, false;
      if turn {
        if c == ' ' {
          out := MakeCheckAndAddMove(start, t, false, moves);
        } else if IsLower(c) {
          out := MakeCheckAndAddMove(start, t, false, moves);
          stop := true;
        } else if IsUpper(c) {
          stop := true;
        }
      } else {
        if c == ' ' {
          out := MakeCheckAndAddMove(start, t, false, moves);
        } else if IsUpper(c) {
          out := MakeCheckAndAddMove(start, t, false, moves);
          stop := true;
        } else if IsLower(c) {
          stop := true;
        }
      }
    }

    /** One ray of a range scan, from distance 1 outwards: squares off the
        board are passed over, and the scan ends where `get_moves` says so. */
    method ScanRay(start: Square, dx: int, dy: int, moves: seq<Move>) returns (out: seq<Move>)
      requires IsBoard(pos) && OnBoard(start)
      modifies this`pos
      ensures pos == old(pos)
      ensures out == moves + RayMoves(pos, turn, start, dx, dy, 1)
    {
      out := moves;
      var j := 1;
      while j <= 7
        invariant 1 <= j <= 8 && pos == old(pos)
        invariant out + RayMoves(pos, turn, start, dx, dy, j) == moves + RayMoves(pos, turn, start, dx, dy, 1)
      {
        var xNew, yNew := start.x + dx * j, start.y + dy * j;
        if 0 <= xNew <= 7 && 0 <= yNew <= 7 {
          var c := pos[yNew][xNew];
          var stop;
          ghost var before := out;
          RayMovesStep(pos, turn, start, dx, dy, j, Square(xNew, yNew));
          if c == ' ' {
            AppendAssoc(before, Tried(pos, turn, Move(start, Square(xNew, yNew)), false), RayMoves(pos, turn, start, dx, dy, j + 1));
          }
          out, stop := GetMoves(c, start, Square(xNew, yNew), out);
          if stop {
            return;
          }
        } else {
          RayMovesStep(pos, turn, start, dx, dy, j, Square(xNew, yNew));
        }
        j := j + 1;
      }
    }

    /** `get_vertical_range`: up the board, then down. */
    method GetVerticalRange(start: Square, moves: seq<Move>) returns (out: seq<Move>)
      requires IsBoard(pos) && OnBoard(start)
      modifies this`pos
      ensures pos == old(pos)
      ensures out == moves + VerticalMoves(pos, turn, start)
    {
      out := ScanRay(start, 0, -1, moves);
      out := ScanRay(start, 0, 1, out);
      AppendAssoc(moves, RayMoves(pos, turn, start, 0, -1, 1), RayMoves(pos, turn, start, 0, 1, 1));
    }

    /** `get_horizontal_range`: towards file a, then towards file h. */
    method GetHorizontalRange(start: Square, moves: seq<Move>) returns (out: seq<Move>)
      requires IsBoard(pos) && OnBoard(start)
      modifies this`pos
      ensures pos == old(pos)
      ensures out == moves + HorizontalMoves(pos, turn, start)
    {
      out := ScanRay(start, -1, 0, moves);
      out := ScanRay(start, 1, 0, out);
      AppendAssoc(moves, RayMoves(pos, turn, start, -1, 0, 1), RayMoves(pos, turn, start, 1, 0, 1));
    }

    /** `get_diagonal_range`: the four diagonals, file step outer. */
    method GetDiagonalRange(start: Square, moves: seq<Move>) returns (out: seq<Move>)
      requires IsBoard(pos) && OnBoard(start)
      modifies this`pos
      ensures pos == old(pos)
      ensures out == moves + DiagonalMoves(pos, turn, start)
    {
      out := ScanRay(start, -1, -1, moves);
      out := ScanRay(start, -1, 1, out);
      out := ScanRay(start, 1, -1, out);
      out := ScanRay(start, 1, 1, out);
      ghost var r1, r2 := RayMoves(pos, turn, start, -1, -1, 1), RayMoves(pos, turn, start, -1, 1, 1);
      ghost var r3, r4 := RayMoves(pos, turn, start, 1, -1, 1), RayMoves(pos, turn, start, 1, 1, 1);
      AppendAssoc4(moves, r1, r2, r3);
      AppendAssoc(moves, r1 + r2 + r3, r4);
    }

    /** The ranges one piece of `kind` scans: vertical, horizontal and
        diagonal for a queen, diagonal for a bishop, vertical and horizontal
        for a rook. */
    method AddRange(start: Square, kind: Slider, moves: seq<Move>) returns (out: seq<Move>)
      requires IsBoard(pos) && OnBoard(start)
      modifies this`pos
      ensures pos == old(pos)
      ensures out == moves + SliderRange(pos, turn, start, kind)
    {
      match kind
      case QueenSlider =>
        out := GetVerticalRange(start, moves);
        out := GetHorizontalRange(start, out);
        out := GetDiagonalRange(start, out);
        AppendAssoc4(moves, VerticalMoves(pos, turn, start), HorizontalMoves(pos, turn, start), DiagonalMoves(pos, turn, start));
      case BishopSlider =>
        out := GetDiagonalRange(start, moves);
      case RookSlider =>
        out := GetVerticalRange(start, moves);
        out := GetHorizontalRange(start, out);
        AppendAssoc(moves, VerticalMoves(pos, turn, start), HorizontalMoves(pos, turn, start));
    }

    /** One loop of `get_queen_bishop_rook_moves`: the ranges of the pieces
        at `starts` in list order, the ranges a piece of `kind` scans. */
    method AddRanges(starts: seq<Square>, kind: Slider, moves: seq<Move>) returns (out: seq<Move>)
      requires IsBoard(pos) && AllOnBoard(starts)
      modifies this`pos
      ensures pos == old(pos)
      ensures out == moves + SliderRanges(pos, turn, starts, kind)
    {
      out := moves;
      var i := 0;
      while i < |starts|
        invariant 0 <= i <= |starts| && pos == old(pos)
        invariant out == moves + SliderRanges(pos, turn, starts[..i], kind)
      {
        SliderRangesStep(pos, turn, starts, i, kind);
        var start := starts[i];
        out := AddRange(start, kind, out);
        AppendAssoc(moves, SliderRanges(pos, turn, starts[..i], kind), SliderRange(pos, turn, start, kind));
        i := i + 1;
      }
      assert starts[..i] == starts;
    }

    /** `get_queen_bishop_rook_moves`: the ranges of the queens, then of the
        bishops, then of the rooks. */
    method GetQueenBishopRookMoves(moves: seq<Move>) returns (out: seq<Move>)
      requires IsBoard(pos)
      modifies this`pos
      ensures pos == old(pos)
      ensures out == moves + SliderMoves(pos, turn)
    {
      var queens, bishops, rooks := FindSliders();
      out := AddRanges(queens, QueenSlider, moves);
      out := AddRanges(bishops, BishopSlider, out);
      out := AddRanges(rooks, RookSlider, out);
      AppendAssoc4(moves, SliderRanges(pos, turn, queens, QueenSlider),
        SliderRanges(pos, turn, bishops, BishopSlider), SliderRanges(pos, turn, rooks, RookSlider));
    }

    // -------------------------------------------------------------------
    // get_knight_moves

    /** The body of the knight loops for one (i, j): a square a knight's jump
        away holding an enemy piece or nothing is tried. */
    method TryJump(knight: Square, i: int, j: int, moves: seq<Move>) returns (out: seq<Move>)
      requires IsBoard(pos) && OnBoard(knight)
      modifies this`pos
      ensures pos == old(pos)
      ensures out == moves + Jump(pos, turn, knight, i, j)
    {
      assert moves + [] == moves;
      out := moves;
      var xNew, yNew := knight.x + i, knight.y + j;
      if Abs(i) != Abs(j) && 0 <= xNew <= 7 && 0 <= yNew <= 7 {
        var c := pos[yNew][xNew];
        if (turn && IsLower(c)) || c == ' ' {
          out := MakeCheckAndAddMove(knight, Square(xNew, yNew), false, moves);
        } else if (!turn && IsUpper(c)) || c == ' ' {
          out := MakeCheckAndAddMove(knight, Square(xNew, yNew), false, moves);
        }
      }
    }

    /** The inner knight loop: `j` over the four offsets for a fixed `i`. */
    method AddJumpRow(knight: Square, i: int, moves: seq<Move>) returns (out: seq<Move>)
      requires IsBoard(pos) && OnBoard(knight)
      modifies this`pos
      ensures pos == old(pos)
      ensures out == moves + JumpRow(pos, turn, knight, i, |Jumps|)
    {
      out := moves;
      var c := 0;
      while c < |Jumps|
        invariant 0 <= c <= |Jumps| && pos == old(pos)
        invariant out == moves + JumpRow(pos, turn, knight, i, c)
      {
        var j := Jumps[c];
        out := TryJump(knight, i, j, out);
        AppendAssoc(moves, JumpRow(pos, turn, knight, i, c), Jump(pos, turn, knight, i, j));
        c := c + 1;
      }
    }

    /** The outer knight loop: `i` over the four offsets. */
    method AddJumps(knight: Square, moves: seq<Move>) returns (out: seq<Move>)
      requires IsBoard(pos) && OnBoard(knight)
      modifies this`pos
      ensures pos == old(pos)
      ensures out == moves + JumpRows(pos, turn, knight, |Jumps|)
    {
      out := moves;
      var a := 0;
      while a < |Jumps|
        invariant 0 <= a <= |Jumps| && pos == old(pos)
        invariant out == moves + JumpRows(pos, turn, knight, a)
      {
        var i := Jumps[a];
        out := AddJumpRow(knight, i, out);
        AppendAssoc(moves, JumpRows(pos, turn, knight, a), JumpRow(pos, turn, knight, i, |Jumps|));
        a := a + 1;
      }
    }

    /** `get_knight_moves`: the knights of the side to move in row-major
        order, each with its jumps. */
    method GetKnightMoves(moves: seq<Move>) returns (out: seq<Move>)
      requires IsBoard(pos)
      modifies this`pos
      ensures pos == old(pos)
      ensures out == moves + KnightMoves(pos, turn)
    {
      var knights := FindPieces(KnightLetter(turn));
      out := moves;
      var n := 0;
      while n < |knights|
        invariant 0 <= n <= |knights| && pos == old(pos)
        invariant out == moves + KnightRanges(pos, turn, knights[..n])
      {
        KnightRangesStep(pos, turn, knights, n);
        out := AddJumps(knights[n], out);
        AppendAssoc(moves, KnightRanges(pos, turn, knights[..n]), JumpRows(pos, turn, knights[n], |Jumps|));
        n := n + 1;
      }
      assert knights[..n] == knights;
    }

    // -------------------------------------------------------------------
    // get_king_moves

    /** The body of the king loops for one (i, j). */
    method TryKingStep(k: Square, i: int, j: int, moves: seq<Move>) returns (out: seq<Move>)
      requires IsBoard(pos) && OnBoard(k)
      modifies this`pos
      ensures pos == old(pos)
      ensures out == moves + KingStep(pos, turn, k, i, j)
    {
      assert moves + [] == moves;
      out := moves;
      ghost var b, white := pos, turn;
      if i != 0 || j != 0 {
        var xNew, yNew := k.x + i, k.y + j;
        if 0 <= xNew <= 7 && 0 <= yNew <= 7 {
          KingStepOnBoard(b, white, k, i, j);
          out := TryKingTarget(k, Square(xNew, yNew), moves);
          assert pos == b && turn == white;
        }
      }
    }

    /** The king's step from `k` to the square `t` on the board: tried when
        `t` is empty or holds an enemy piece other than the enemy king. */
    method TryKingTarget(k: Square, t: Square, moves: seq<Move>) returns (out: seq<Move>)
      requires IsBoard(pos) && OnBoard(k) && OnBoard(t)
      modifies this`pos
      ensures pos == old(pos)
      ensures out == moves + (if KingTarget(turn, At(pos, t)) then Tried(pos, turn, Move(k, t), false) else [])
    {
      assert moves + [] == moves;
      out := moves;
      var c := pos[t.y][t.x];
      var target := if turn then (IsLower(c) || c == ' ') && c != 'k'
                    else (IsUpper(c) || c == ' ') && c != 'K';
      assert target == KingTarget(turn, c);
      if target {
        out := MakeCheckAndAddMove(k, t, false, moves);
      }
    }

    /** The three attack tests of one castling check, in the order
        `get_king_moves` makes them, each only when the previous ones found
        no attack: the two squares the king crosses, then the king's own
        square. */
    method CastlingSafe(s1: Square, s2: Square) returns (safe: bool)
      requires IsBoard(pos) && OnBoard(s1) && OnBoard(s2) && OnBoard(KingCoordinates(pos, turn))
      ensures safe == (!Attacked(pos, turn, s1) && !Attacked(pos, turn, s2) &&
                       !Attacked(pos, turn, KingCoordinates(pos, turn)))
    {
      safe := false;
      var a1 := IsAttacked(s1);
      if !a1 {
        var a2 := IsAttacked(s2);
        if !a2 {
          var king := GetKingCoordinates();
          var a3 := IsAttacked(king);
          safe := !a3;
        }
      }
    }

    /** King side castling from the king's home square `k`: the right
        (index 0 for white, 2 for black), f and g empty, then the attack
        tests. */
    method TryCastleShort(k: Square, right: int, moves: seq<Move>) returns (out: seq<Move>)
      requires IsBoard(pos) && |castling| == 4 && OnBoard(k) && KingCoordinates(pos, turn) == k
      requires right == if turn then 0 else 2
      ensures out == moves + CastleShort(pos, turn, castling, k)
    {
      assert moves + [] == moves;
      out := moves;
      if castling[right] && pos[k.y][5] == ' ' && pos[k.y][6] == ' ' {
        var safe := CastlingSafe(Square(5, k.y), Square(6, k.y));
        if safe {
          out := out + [Move(Square(4, k.y), Square(6, k.y))];
        }
      }
    }

    /** Queen side castling from the king's home square `k`: the right
        (index 1 for white, 3 for black), b, c and d empty, then the attack
        tests on c, d and the king. */
    method TryCastleLong(k: Square, right: int, moves: seq<Move>) returns (out: seq<Move>)
      requires IsBoard(pos) && |castling| == 4 && OnBoard(k) && KingCoordinates(pos, turn) == k
      requires right == if turn then 1 else 3
      ensures out == moves + CastleLong(pos, turn, castling, k)
    {
      assert moves + [] == moves;
      out := moves;
      if castling[right] && pos[k.y][1] == ' ' && pos[k.y][2] == ' ' && pos[k.y][3] == ' ' {
        var safe := CastlingSafe(Square(2, k.y), Square(3, k.y));
        if safe {
          out := out + [Move(Square(4, k.y), Square(2, k.y))];
        }
      }
    }

    /** The inner king loop: `j` over the three offsets for a fixed `i`. */
    method AddKingRow(k: Square, i: int, moves: seq<Move>) returns (out: seq<Move>)
      requires IsBoard(pos) && OnBoard(k)
      modifies this`pos
      ensures pos == old(pos)
      ensures out == moves + KingRow(pos, turn, k, i, |KingSteps|)
    {
      out := moves;
      var c := 0;
      while c < |KingSteps|
        invariant 0 <= c <= |KingSteps| && pos == old(pos)
        invariant out == moves + KingRow(pos, turn, k, i, c)
      {
        var j := KingSteps[c];
        out := TryKingStep(k, i, j, out);
        AppendAssoc(moves, KingRow(pos, turn, k, i, c), KingStep(pos, turn, k, i, j));
        c := c + 1;
      }
    }

    /** The outer king loop: `i` over the three offsets. */
    method AddKingRows(k: Square, moves: seq<Move>) returns (out: seq<Move>)
      requires IsBoard(pos) && OnBoard(k)
      modifies this`pos
      ensures pos == old(pos)
      ensures out == moves + KingRows(pos, turn, k, |KingSteps|)
    {
      out := moves;
      var a := 0;
      while a < |KingSteps|
        invariant 0 <= a <= |KingSteps| && pos == old(pos)
        invariant out == moves + KingRows(pos, turn, k, a)
      {
        var i := KingSteps[a];
        out := AddKingRow(k, i, out);
        AppendAssoc(moves, KingRows(pos, turn, k, a), KingRow(pos, turn, k, i, |KingSteps|));
        a := a + 1;
      }
    }

    /** `get_king_moves`: the eight neighbours, file step outer, then the
        castling moves when the king stands on e1 (white) or e8 (black). */
    method GetKingMoves(moves: seq<Move>) returns (out: seq<Move>)
      requires IsBoard(pos) && |castling| == 4 && OnBoard(KingCoordinates(pos, turn))
      modifies this`pos
      ensures pos == old(pos)
      ensures out == moves + KingMoves(pos, turn, castling)
    {
      var k := GetKingCoordinates();
      out := AddKingRows(k, moves);
      ghost var rows := KingRows(pos, turn, k, |KingSteps|);
      if turn && k.x == 4 && k.y == 7 {
        out := TryCastleShort(Square(4, 7), 0, out);
        out := TryCastleLong(Square(4, 7), 1, out);
        AppendAssoc(moves + rows, CastleShort(pos, turn, castling, k), CastleLong(pos, turn, castling, k));
        AppendAssoc(moves, rows, CastleShort(pos, turn, castling, k) + CastleLong(pos, turn, castling, k));
      } else if !turn && k.x == 4 && k.y == 0 {
        out := TryCastleShort(Square(4, 0), 2, out);
        out := TryCastleLong(Square(4, 0), 3, out);
        AppendAssoc(moves + rows, CastleShort(pos, turn, castling, k), CastleLong(pos, turn, castling, k));
        AppendAssoc(moves, rows, CastleShort(pos, turn, castling, k) + CastleLong(pos, turn, castling, k));
      } else {
        assert rows + [] == rows;
      }
    }

    // -------------------------------------------------------------------
    // Pawns

    /** The single step of `check_pawn_moves`: tried when the square ahead
        is empty. */
    method TryPawnAdvance(start: Square, yNew: int, moves: seq<Move>) returns (out: seq<Move>)
      requires IsBoard(pos) && OnBoard(start) && yNew == start.y + Forward(turn) && 0 <= yNew <= 7
      modifies this`pos
      ensures pos == old(pos)
      ensures out == moves + PawnAdvance(pos, turn, start)
    {
      assert moves + [] == moves;
      out := moves;
      if pos[yNew][start.x] == ' ' {
        out := MakeCheckAndAddMove(start, Square(start.x, yNew), false, moves);
      }
    }

    /** The double step: tried from the start row `y1` when the squares on
        rows `y2` and `y3` ahead are empty. */
    method TryPawnDouble(start: Square, y1: int, y2: int, y3: int, moves: seq<Move>) returns (out: seq<Move>)
      requires IsBoard(pos) && OnBoard(start)
      requires y1 == PawnHome(turn) && y2 == PawnMiddle(turn) && y3 == PawnDouble(turn)
      modifies this`pos
      ensures pos == old(pos)
      ensures out == moves + PawnDoubleStep(pos, turn, start)
    {
      assert moves + [] == moves;
      out := moves;
      if start.y == y1 && pos[y2][start.x] == ' ' && pos[y3][start.x] == ' ' {
        out := MakeCheckAndAddMove(start, Square(start.x, y3), false, moves);
      }
    }

    /** A capture towards file `start.x + dx`: tried when that square on the
        row ahead holds an enemy piece (lower case for white, upper case
        for black). */
    method TryPawnCapture(start: Square, yNew: int, dx: int, moves: seq<Move>) returns (out: seq<Move>)
      requires IsBoard(pos) && OnBoard(start) && yNew == start.y + Forward(turn) && 0 <= yNew <= 7
      modifies this`pos
      ensures pos == old(pos)
      ensures out == moves + PawnCapture(pos, turn, start, dx)
    {
      assert moves + [] == moves;
      out := moves;
      var xNew := start.x + dx;
      if 0 <= xNew <= 7 {
        var c := pos[yNew][xNew];
        var enemy := if turn then IsLower(c) else IsUpper(c);
        if enemy {
          out := MakeCheckAndAddMove(start, Square(xNew, yNew), false, moves);
        }
      }
    }

    /** The en passant capture: tried when the en passant square is the
        square diagonally ahead, left file first, and the pawn stands on row
        `y4`. */
    method TryEnPassant(start: Square, yNew: int, y4: int, moves: seq<Move>) returns (out: seq<Move>)
      requires IsBoard(pos) && OnBoard(start) && yNew == start.y + Forward(turn) && 0 <= yNew <= 7
      requires y4 == PawnCaptureRow(turn)
      modifies this`pos
      ensures pos == old(pos)
      ensures out == moves + EnPassantMoves(pos, turn, enPassant, start)
    {
      assert moves + [] == moves;
      out := moves;
      if enPassant.Some? {
        var e := enPassant.value;
        var x, y := start.x, start.y;
        if 0 <= x - 1 <= 7 && x - 1 == e.x && yNew == e.y && y == y4 {
          out := MakeCheckAndAddMove(start, e, true, moves);
        } else if 0 <= x + 1 <= 7 && x + 1 == e.x && yNew == e.y && y == y4 {
          out := MakeCheckAndAddMove(start, e, true, moves);
        }
      }
    }

    /** `check_pawn_moves` for the pawn at `start`, with the rows the caller
        passes: the row ahead, the start row, the row crossed and the row
        reached by the double step, and the row an en passant capture is
        made from. */
    method CheckPawnMoves(moves: seq<Move>, start: Square, yNew: int, y1: int, y2: int, y3: int, y4: int)
      returns (out: seq<Move>)
      requires IsBoard(pos) && OnBoard(start) && yNew == start.y + Forward(turn) && 0 <= yNew <= 7
      requires y1 == PawnHome(turn) && y2 == PawnMiddle(turn) && y3 == PawnDouble(turn) && y4 == PawnCaptureRow(turn)
      modifies this`pos
      ensures pos == old(pos)
      ensures out == moves + PawnMovesAt(pos, turn, enPassant, start)
    {
      out := TryPawnAdvance(start, yNew, moves);
      out := TryPawnDouble(start, y1, y2, y3, out);
      out := TryPawnCapture(start, yNew, -1, out);
      out := TryPawnCapture(start, yNew, 1, out);
      out := TryEnPassant(start, yNew, y4, out);
      AppendAssoc(moves, PawnAdvance(pos, turn, start), PawnDoubleStep(pos, turn, start));
      AppendAssoc4(moves, PawnAdvance(pos, turn, start) + PawnDoubleStep(pos, turn, start),
        PawnCapture(pos, turn, start, -1), PawnCapture(pos, turn, start, 1));
      AppendAssoc(moves, PawnAdvance(pos, turn, start) + PawnDoubleStep(pos, turn, start) +
        PawnCapture(pos, turn, start, -1) + PawnCapture(pos, turn, start, 1), EnPassantMoves(pos, turn, enPassant, start));
    }

    /** The body of `get_pawn_moves`' loop for the pawn at `start`: the
        rows of `check_pawn_moves` for the colour to move. */
    method PawnMovesFrom(start: Square, moves: seq<Move>) returns (out: seq<Move>)
      requires IsBoard(pos) && OnBoard(start) && 0 <= start.y + Forward(turn) <= 7
      modifies this`pos
      ensures pos == old(pos)
      ensures out == moves + PawnMovesAt(pos, turn, enPassant, start)
    {
      var x, y := start.x, start.y;
      if turn {
        out := CheckPawnMoves(moves, Square(x, y), y - 1, 6, 5, 4, 3);
      } else {
        out := CheckPawnMoves(moves, Square(x, y), y + 1, 1, 2, 3, 4);
      }
    }

    /** `get_pawn_moves`: the pawns of the side to move in row-major order,
        each with the rows for its colour (white advances towards row 0,
        black towards row 7). Like the source, it assumes no pawn stands on
        its promotion row. */
    method GetPawnMoves(moves: seq<Move>) returns (out: seq<Move>)
      requires IsBoard(pos) && PawnsCanAdvance(pos, turn)
      modifies this`pos
      ensures pos == old(pos)
      ensures out == moves + PawnMoves(pos, turn, enPassant)
    {
      var pawns := FindPieces(PawnOf(turn));
      ghost var b := pos;
      PawnsOffLastRow(b, turn);
      assert PawnSquares(pawns, turn);
      out := moves;
      var n := 0;
      while n < |pawns|
        invariant 0 <= n <= |pawns| && pos == b && PawnSquares(pawns[..n], turn)
        invariant out == moves + PawnRanges(b, turn, enPassant, pawns[..n])
      {
        PawnRangesStep(b, turn, enPassant, pawns, n);
        ghost var done := PawnRanges(b, turn, enPassant, pawns[..n]);
        out := PawnMovesFrom(pawns[n], out);
        AppendAssoc(moves, done, PawnMovesAt(b, turn, enPassant, pawns[n]));
        n := n + 1;
      }
      assert pawns[..n] == pawns;
    }

    // -------------------------------------------------------------------
    // get_legal_moves

    /** `get_legal_moves`: king moves, then queen, bishop and rook moves,
        then knight moves, then pawn moves, each generator appending to the
        same list; the position is left as it was. */
    method GetLegalMoves() returns (legal: seq<Move>)
      requires CanGenerate(pos, turn, castling)
      modifies this`pos
      ensures pos == old(pos)
      ensures legal == LegalMoves(pos, turn, castling, enPassant)
    {
      legal := GetKingMoves([]);
      legal := GetQueenBishopRookMoves(legal);
      legal := GetKnightMoves(legal);
      legal := GetPawnMoves(legal);
      assert [] + KingMoves(pos, turn, castling) == KingMoves(pos, turn, castling);
    }

    // -------------------------------------------------------------------
    // make_move and check_promotions

    /** The count update of `check_promotions` for the piece `choice`
        placed at (x, y): a bishop by the colour of its square, any other
        piece under its own letter. */
    method CountPromotedPiece(choice: char, x: int, y: int)
      requires 0 <= x < 8 && 0 <= y < 8 && IsPiece(choice) && CountKeys <= pieceCount.Keys
      modifies this`pieceCount
      ensures pieceCount == Inc(old(pieceCount), Bucket(choice, x, y))
    {
      BucketIsKey(choice, x, y);
      var light := (x % 2 == 0 && y % 2 == 0) || (x % 2 == 1 && y % 2 == 1);
      var dark := (x % 2 == 0 && y % 2 == 1) || (x % 2 == 1 && y % 2 == 0);
      if choice != 'B' && choice != 'b' {
        pieceCount := pieceCount[[choice] := pieceCount[[choice]] + 1];
      } else if choice == 'B' && light {
        pieceCount := pieceCount["lB" := pieceCount["lB"] + 1];
      } else if choice == 'B' && dark {
        pieceCount := pieceCount["dB" := pieceCount["dB"] + 1];
      } else if choice == 'b' && light {
        pieceCount := pieceCount["lb" := pieceCount["lb"] + 1];
      } else if choice == 'b' && dark {
        pieceCount := pieceCount["db" := pieceCount["db"] + 1];
      }
    }

    /** `check_promotions` with the player's choice as a parameter: the
        first pawn of the side to move on its last row becomes `choice`, the
        pawn count drops by one, the count of the chosen piece (a bishop's by
        square colour) rises by one, and '=' and the upper-case letter are
        appended to the move text. */
    method CheckPromotions(choice: char)
      requires IsBoard(pos) && CountKeys <= pieceCount.Keys && choice in PromotionChoices(turn)
      modifies this`pos, this`pieceCount, this`pgn
      ensures (pos, pieceCount, pgn) == Promoted(old(pos), old(pieceCount), old(pgn), turn, choice)
    {
      ghost var r := Promoted(pos, pieceCount, pgn, turn, choice);
      var pawn, rank, y;
      if turn {
        pawn, rank, y := 'P', pos[0], 0;
      } else {
        pawn, rank, y := 'p', pos[7], 7;
      }
      if pawn in rank {
        var x := Fen.IndexOf(rank, pawn);
        ghost var lowered := Dec(pieceCount, [pawn]);
        assert r == (Put(pos, Square(x, y), choice), Inc(lowered, Bucket(choice, x, y)), pgn + "=" + [ToUpper(choice)]);
        pieceCount := pieceCount[[pawn] := pieceCount[[pawn]] - 1];
        assert pieceCount == lowered;
        pos := pos[y := pos[y][x := choice]];
        CountPromotedPiece(choice, x, y);
        pgn := pgn + "=" + [ToUpper(choice)];
      }
    }

    /** The capture bookkeeping of `make_move`: the count of the piece on
        the destination drops by one, a bishop's by the colour of its
        square; nothing changes when the destination was empty. */
    method CountCapture(endPiece: char, xNew: int, yNew: int)
      requires 0 <= xNew < 8 && 0 <= yNew < 8 && IsPieceKey(endPiece) && CountKeys <= pieceCount.Keys
      modifies this`pieceCount
      ensures pieceCount == Captured(old(pieceCount), endPiece, Square(xNew, yNew))
    {
      BucketIsKey(endPiece, xNew, yNew);
      if endPiece != ' ' {
        if endPiece != 'B' && endPiece != 'b' {
          pieceCount := pieceCount[[endPiece] := pieceCount[[endPiece]] - 1];
        } else if endPiece == 'B' && ((xNew % 2 == 0 && yNew % 2 == 0) || (xNew % 2 == 1 && yNew % 2 == 1)) {
          pieceCount := pieceCount["lB" := pieceCount["lB"] - 1];
        } else if endPiece == 'B' && ((xNew % 2 == 0 && yNew % 2 == 1) || (xNew % 2 == 1 && yNew % 2 == 0)) {
          pieceCount := pieceCount["dB" := pieceCount["dB"] - 1];
        } else if endPiece == 'b' && ((xNew % 2 == 0 && yNew % 2 == 0) || (xNew % 2 == 1 && yNew % 2 == 1)) {
          pieceCount := pieceCount["lb" := pieceCount["lb"] - 1];
        } else {
          pieceCount := pieceCount["db" := pieceCount["db"] - 1];
        }
      }
    }

    /** The castling part of `make_move`: a move from a rook corner drops
        that right, a move from e8 or e1 drops both of that side's rights
        and, when it is that king moving two files, moves the rook. */
    method UpdateCastling(start: Square, end: Square, piece: char)
      requires IsBoard(pos) && |castling| == 4
      modifies this`pos, this`castling
      ensures castling == RightsAfter(old(castling), start)
      ensures pos == RookRelocated(old(pos), piece, start, end)
    {
      var x, y, xNew, yNew := start.x, start.y, end.x, end.y;
      if x == 0 && y == 0 {
        castling := castling[3 := false];
      } else if x == 7 && y == 0 {
        castling := castling[2 := false];
      } else if x == 0 && y == 7 {
        castling := castling[1 := false];
      } else if x == 7 && y == 7 {
        castling := castling[0 := false];
      } else if x == 4 && y == 0 {
        castling := castling[2 := false];
        castling := castling[3 := false];
        if xNew == 6 && yNew == 0 && piece == 'k' {
          pos := pos[0 := pos[0][7 := ' ']];
          pos := pos[0 := pos[0][5 := 'r']];
        } else if xNew == 2 && yNew == 0 && piece == 'k' {
          pos := pos[0 := pos[0][0 := ' ']];
          pos := pos[0 := pos[0][3 := 'r']];
        }
      } else if x == 4 && y == 7 {
        castling := castling[0 := false];
        castling := castling[1 := false];
        if xNew == 6 && yNew == 7 && piece == 'K' {
          pos := pos[7 := pos[7][7 := ' ']];
          pos := pos[7 := pos[7][5 := 'R']];
        } else if xNew == 2 && yNew == 7 && piece == 'K' {
          pos := pos[7 := pos[7][0 := ' ']];
          pos := pos[7 := pos[7][3 := 'R']];
        }
      }
    }

    /** The en passant part of `make_move`: the pawn behind the
        destination is removed and the other side's pawn count lowered. */
    method RemoveEnPassantPawn(end: Square, isEnPassant: bool)
      requires IsBoard(pos) && CountKeys <= pieceCount.Keys && (isEnPassant ==> OnBoard(Behind(turn, end)))
      modifies this`pos, this`pieceCount
      ensures (pos, pieceCount) == EnPassantCaptured(old(pos), old(pieceCount), turn, end, isEnPassant)
    {
      var xNew, yNew := end.x, end.y;
      if isEnPassant {
        if turn {
          pieceCount := pieceCount["p" := pieceCount["p"] - 1];
          pos := pos[yNew + 1 := pos[yNew + 1][xNew := ' ']];
        } else {
          pieceCount := pieceCount["P" := pieceCount["P"] - 1];
          pos := pos[yNew - 1 := pos[yNew - 1][xNew := ' ']];
        }
      }
    }

    /** The first half of `make_move`: the piece moves, a capture is
        counted, the castling rights are updated and a castling rook moved,
        and a pawn taken en passant is removed. Returns the moved piece and
        what stood on the destination. */
    method MovePiece(start: Square, end: Square, isEnPassant: bool) returns (piece: char, endPiece: char)
      requires ValidCells(pos) && OnBoard(start) && OnBoard(end) && CountKeys <= pieceCount.Keys
      requires |castling| == 4 && (isEnPassant ==> OnBoard(Behind(turn, end)))
      modifies this`pos, this`pieceCount, this`castling
      ensures piece == At(old(pos), start) && endPiece == At(old(pos), end)
      ensures (pos, pieceCount) == Moved(old(Snapshot()), Move(start, end), isEnPassant)
      ensures castling == RightsAfter(old(castling), start)
    {
      var x, y := start.x, start.y;
      var xNew, yNew := end.x, end.y;

      piece := pos[y][x];
      endPiece := pos[yNew][xNew];

      pos := pos[y := pos[y][x := ' ']];
      CountCapture(endPiece, xNew, yNew);
      pos := pos[yNew := pos[yNew][xNew := piece]];
      UpdateCastling(start, end, piece);
      RemoveEnPassantPawn(end, isEnPassant);
    }

    /** The en passant target and the clocks as `make_move` sets them: the
        crossed square after a pawn's double step, the halfmove clock reset
        by a pawn move or a capture, the move number raised after black's
        move. */
    method UpdateClocks(piece: char, endPiece: char, start: Square, end: Square)
      modifies this`enPassant, this`halfmove, this`fullmove
      ensures enPassant == EnPassantTarget(piece, start, end)
      ensures halfmove == if piece == 'P' || piece == 'p' || endPiece != ' ' then 0 else old(halfmove) + 1
      ensures fullmove == if turn then old(fullmove) else old(fullmove) + 1
    {
      var x, y := start.x, start.y;
      var yNew := end.y;
      enPassant := None;
      if piece == 'P' && y == 6 && yNew == 4 {
        enPassant := Some(Square(x, 5));
      } else if piece == 'p' && y == 1 && yNew == 3 {
        enPassant := Some(Square(x, 2));
      }

      if piece == 'P' || piece == 'p' || endPiece != ' ' {
        halfmove := 0;
      } else {
        halfmove := halfmove + 1;
      }

      if !turn {
        fullmove := fullmove + 1;
      }
    }

    /** `make_move` up to the FEN update: the stages in the order written,
        then the promotion and the turn change. */
    method PlayMove(start: Square, end: Square, isEnPassant: bool, choice: char)
      requires CanApply(Snapshot(), Move(start, end), isEnPassant, choice)
      modifies this`pos, this`pieceCount, this`castling, this`enPassant, this`halfmove,
               this`fullmove, this`pgn, this`turn
      ensures Snapshot() == Apply(old(Snapshot()), Move(start, end), isEnPassant, choice)
    {
      ghost var g := Snapshot();
      var piece, endPiece := MovePiece(start, end, isEnPassant);
      ghost var b3, c3, rights := pos, pieceCount, castling;
      UpdateClocks(piece, endPiece, start, end);
      ghost var target, half, full := enPassant, halfmove, fullmove;
      CheckPromotions(choice);
      assert castling == rights && enPassant == target && halfmove == half && fullmove == full && turn == g.turn;
      ApplyStages(g, Move(start, end), isEnPassant, choice, b3, c3, (pos, pieceCount, pgn));
      turn := !turn;
      assert Snapshot() == Game(pos, !g.turn, rights, target, half, full, pieceCount, pgn);
    }

    /** `make_move` with the promotion choice as a parameter: the move is
        played as `Rules.Apply` describes it and the FEN text rebuilt from
        the new state. */
    method MakeMove(start: Square, end: Square, isEnPassant: bool, choice: char)
      requires CanApply(Snapshot(), Move(start, end), isEnPassant, choice)
      modifies this`pos, this`pieceCount, this`castling, this`enPassant, this`halfmove,
               this`fullmove, this`pgn, this`turn, this`currentFen
      ensures Snapshot() == Apply(old(Snapshot()), Move(start, end), isEnPassant, choice)
      ensures currentFen == Fen.FenString(pos, turn, castling, enPassant, halfmove, fullmove)
    {
      PlayMove(start, end, isEnPassant, choice);
      currentFen := Fen.GetFen(pos, turn, castling, enPassant, halfmove, fullmove);
    }

    // -------------------------------------------------------------------
    // insufficient_material and is_end_of_game

    /** `insufficient_material`: the tests in the order written, each
        returning true when it matches. */
    method InsufficientMaterial() returns (draw: bool)
      requires pieceCount.Keys == CountKeys
      ensures draw == MaterialDraw(pieceCount)
    {
      var c := pieceCount;
      var piecesSum := c["K"] + c["Q"] + c["R"] + c["dB"] + c["lB"] + c["N"] + c["P"] +
                       c["k"] + c["q"] + c["r"] + c["db"] + c["lb"] + c["n"] + c["p"];

      // King against king
      if c["K"] == 1 && c["k"] == 1 && piecesSum == 2 {
        return true;
      }

      // King and bishops of one colour against a king
      if c["K"] == 1 && c["lB"] != 0 && c["k"] == 1 && piecesSum - c["lB"] == 2 {
        return true;
      }
      if c["K"] == 1 && c["dB"] != 0 && c["k"] == 1 && piecesSum - c["dB"] == 2 {
        return true;
      }
      if c["K"] == 1 && c["k"] == 1 && c["lb"] != 0 && piecesSum - c["lb"] == 2 {
        return true;
      }
      if c["K"] == 1 && c["k"] == 1 && c["db"] != 0 && piecesSum - c["db"] == 2 {
        return true;
      }

      // King and knight against king
      if c["K"] == 1 && c["N"] == 1 && c["k"] == 1 && piecesSum - c["N"] == 2 {
        return true;
      }
      if c["K"] == 1 && c["k"] == 1 && c["n"] == 1 && piecesSum - c["n"] == 2 {
        return true;
      }

      // Kings and bishops all on one colour
      if c["K"] == 1 && c["lB"] != 0 && c["dB"] == 0 && c["k"] == 1 && c["lb"] != 0 && c["db"] == 0 &&
         piecesSum - c["lB"] - c["lb"] == 2 {
        return true;
      }
      if c["K"] == 1 && c["lB"] == 0 && c["dB"] != 0 && c["k"] == 1 && c["lb"] == 0 && c["db"] != 0 &&
         piecesSum - c["dB"] - c["db"] == 2 {
        return true;
      }

      return false;
    }

    /** The threefold repetition test of `is_end_of_game`: any count of
        three or more sets the status. */
    method RepetitionStatus(repetitions: seq<int>) returns (status: Status)
      ensures status == if exists j :: 0 <= j < |repetitions| && repetitions[j] >= 3 then ThreefoldRepetition else Normal
    {
      status := Normal;
      var i := 0;
      while i < |repetitions|
        invariant 0 <= i <= |repetitions|
        invariant status == if exists j :: 0 <= j < i && repetitions[j] >= 3 then ThreefoldRepetition else Normal
      {
        if repetitions[i] >= 3 {
          status := ThreefoldRepetition;
        }
        i := i + 1;
      }
    }

    /** One stalemate/checkmate probe of `is_end_of_game`: whether the side
        to move is in check and whether it has no legal move. The ghost `g`
        names the state, which the probe leaves as it was. */
    method MateTest(ghost g: Game) returns (inCheck: bool, stuck: bool)
      requires Snapshot() == g && CanGenerate(g.pos, g.turn, g.castling)
      modifies this`pos
      ensures Snapshot() == g
      ensures inCheck == InCheck(g.pos, g.turn)
      ensures stuck == NoLegalMove(g.pos, g.turn, g.castling, g.enPassant)
    {
      var king := GetKingCoordinates();
      inCheck := IsAttacked(king);
      var legal := GetLegalMoves();
      stuck := |legal| == 0;
    }

    /** The first three tests of `is_end_of_game`: repetition, then the
        fifty-move rule, then insufficient material, each overriding the
        one before. */
    method DrawStatus(repetitions: seq<int>) returns (status: Status)
      requires pieceCount.Keys == CountKeys
      ensures status ==
        if MaterialDraw(pieceCount) then Status.InsufficientMaterial
        else if halfmove >= 100 then FiftyMoveRule
        else if exists i :: 0 <= i < |repetitions| && repetitions[i] >= 3 then ThreefoldRepetition
        else Normal
    {
      status := RepetitionStatus(repetitions);

      // Fifty-move rule
      if halfmove >= 100 {
        status := FiftyMoveRule;
      }

      // Insufficient material
      var draw := InsufficientMaterial();
      if draw {
        status := Status.InsufficientMaterial;
      }
    }

    /** The last two tests of `is_end_of_game`: stalemate overrides `status`,
        then checkmate overrides that. */
    method MateStatus(ghost g: Game, status0: Status) returns (status: Status)
      requires Snapshot() == g && CanGenerate(g.pos, g.turn, g.castling)
      modifies this`pos
      ensures Snapshot() == g
      ensures status ==
        var inCheck := InCheck(g.pos, g.turn);
        var stuck := NoLegalMove(g.pos, g.turn, g.castling, g.enPassant);
        if inCheck && stuck then (if g.turn then BlackWins else WhiteWins)
        else if !inCheck && stuck then Stalemate
        else status0
    {
      status := StalemateStatus(g, status0);
      status := CheckmateStatus(g, status);
    }

    /** The stalemate test of `is_end_of_game`: not in check and no legal move. */
    method StalemateStatus(ghost g: Game, status0: Status) returns (status: Status)
      requires Snapshot() == g && CanGenerate(g.pos, g.turn, g.castling)
      modifies this`pos
      ensures Snapshot() == g
      ensures status ==
        if !InCheck(g.pos, g.turn) && NoLegalMove(g.pos, g.turn, g.castling, g.enPassant) then Stalemate else status0
    {
      status := status0;
      var inCheck, stuck := MateTest(g);
      if !inCheck && stuck {
        status := Stalemate;
      }
    }

    /** The checkmate test of `is_end_of_game`: in check and no legal move;
        the side to move has lost. */
    method CheckmateStatus(ghost g: Game, status0: Status) returns (status: Status)
      requires Snapshot() == g && CanGenerate(g.pos, g.turn, g.castling)
      modifies this`pos
      ensures Snapshot() == g
      ensures status ==
        if InCheck(g.pos, g.turn) && NoLegalMove(g.pos, g.turn, g.castling, g.enPassant) then (if g.turn then BlackWins else WhiteWins)
        else status0
    {
      status := status0;
      var inCheck, stuck := MateTest(g);
      if inCheck && stuck {
        if turn {
          status := BlackWins;
        } else {
          status := WhiteWins;
        }
      }
    }

    /** `is_end_of_game` with the repetition counts of the positions seen so
        far as a parameter: each test that matches overwrites the status of
        the earlier ones; the position is left as it was. */
    method IsEndOfGame(repetitions: seq<int>) returns (status: Status)
      requires CanGenerate(pos, turn, castling) && pieceCount.Keys == CountKeys
      modifies this`pos
      ensures pos == old(pos)
      ensures status == EndStatus(Snapshot(), repetitions)
    {
      ghost var g := Snapshot();
      status := DrawStatus(repetitions);
      status := MateStatus(g, status);
    }
  }
}
