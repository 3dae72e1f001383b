/** `check_fen` of fen.py. Its last test builds a `Position` from the line,
    so it sits in a module of its own above Board (fen.py and board.py
    import each other). */
module FenCheck {
  import opened Chess
  import opened Attack
  import opened Rules
  import opened Board
  import Fen

  /** What `check_fen` answers for a line: the verdict of the structural
      checks, and for a line that passes them `INVALID_FEN` when the side
      that has just moved is left in check. */
  function Verdict(line: string): Fen.FenVerdict {
    var pre := Fen.FenPrecheck(line);
    if pre != Fen.FenNormal then pre
    else
      StartGamePlayable(line);
      var g := StartGame(line);
      if Attacked(g.pos, !g.turn, KingCoordinates(g.pos, !g.turn)) then Fen.FenInvalid else Fen.FenNormal
  }

  /** A line `check_fen` accepts starts a game the side to move can play:
      its king and the other king are on the board, the side that has just
      moved is not in check, no pawn stands on its promotion row and the
      counts agree with the board. */
  lemma AcceptedFenIsPlayable(line: string)
    requires Verdict(line) == Fen.FenNormal
    ensures Fen.FenPrecheck(line) == Fen.FenNormal
    ensures var g := StartGame(line);
      CanGenerate(g.pos, g.turn, g.castling) && CountsMatch(g.pos, g.pieceCount) &&
      !Attacked(g.pos, !g.turn, KingCoordinates(g.pos, !g.turn))
  {
    StartGamePlayable(line);
  }

  /** With the corrected king test as well, the kings of the started game
      do not touch either. */
  lemma AcceptedFenKingsApart(line: string)
    requires Verdict(line) == Fen.FenNormal && Fen.KingsApartByFile(line)
    ensures var g := StartGame(line);
      IsBoard(g.pos) && KingsApart(g.pos, g.turn, KingCoordinates(g.pos, g.turn))
  {
    StartKingsApart(line);
  }

  /** The codes `check_fen` can return: 0, the Python `True` of a pawn on a
      back rank (1), or `INVALID_FEN` (7); only 0 lets the game start. */
  lemma VerdictCodes(line: string)
    ensures Fen.VerdictCode(Verdict(line)) in {0, 1, 7}
    ensures Fen.VerdictCode(Verdict(line)) == 0 <==> Verdict(line) == Fen.FenNormal
  {
  }

  /** The count of a king letter `check_rank` adds for a rank it accepts is
      its number of occurrences. */
  lemma KingsSeenAccepted(rank: string, king: char)
    requires Fen.RankOk(rank)
    ensures Fen.KingsSeen(rank, king) == Fen.Occurrences(rank, king)
  {
    Fen.FirstBadIs(rank, |rank|);
    assert rank[..|rank|] == rank;
  }

  /** The loop of `check_fen` over the rank strings: `check_rank` on each,
      stopping at the first one refused, with the king counts in `kings`. */
  method CheckRanks(ranks: seq<string>) returns (ok: bool, whiteKings: int, blackKings: int)
    ensures ok == forall i :: 0 <= i < |ranks| ==> Fen.RankOk(ranks[i])
    ensures ok ==> whiteKings == Fen.TotalOccurrences(ranks, 'K') && blackKings == Fen.TotalOccurrences(ranks, 'k')
  {
    var kings := new int[2];
    kings[0], kings[1] := 0, 0;
    var i := 0;
    while i < |ranks|
      invariant 0 <= i <= |ranks|
      invariant forall j :: 0 <= j < i ==> Fen.RankOk(ranks[j])
      invariant kings[0] == Fen.TotalOccurrences(ranks[..i], 'K')
      invariant kings[1] == Fen.TotalOccurrences(ranks[..i], 'k')
    {
      var code := Fen.CheckRank(ranks[i], kings);
      if code != Normal {
        return false, kings[0], kings[1];
      }
      KingsSeenAccepted(ranks[i], 'K');
      KingsSeenAccepted(ranks[i], 'k');
      assert ranks[..i + 1][..i] == ranks[..i];
      i := i + 1;
    }
    assert ranks[..i] == ranks;
    return true, kings[0], kings[1];
  }

  /** The structural checks of `check_fen`, in the source's order. */
  method Precheck(line: string) returns (verdict: Fen.FenVerdict)
    ensures verdict == Fen.FenPrecheck(line)
  {
    // Check for correct number of [space] separated substrings
    var spaceSplit := Fen.Split(line, ' ');
    if |spaceSplit| != 6 {
      return Fen.FenInvalid;
    }

    // Check for correct number of / separated substrings
    var slashSplit := Fen.Split(spaceSplit[0], '/');
    if |slashSplit| != 8 {
      return Fen.FenInvalid;
    }

    // Check that pawns do not appear on own home rank or on enemy home rank
    if 'P' in slashSplit[0] || 'p' in slashSplit[0] || 'P' in slashSplit[7] || 'p' in slashSplit[7] {
      return Fen.FenPawnOnBackRank;
    }

    // Check each rank and make sure each king appears once
    var ok, whiteKings, blackKings := CheckRanks(slashSplit);
    if !ok {
      return Fen.FenInvalid;
    }
    if whiteKings != 1 || blackKings != 1 {
      return Fen.FenInvalid;
    }

    // Check the turn
    if spaceSplit[1] != "w" && spaceSplit[1] != "b" {
      return Fen.FenInvalid;
    }

    // Check king placements
    Fen.KingSquareByFile(slashSplit, 'K');
    Fen.KingSquareByFile(slashSplit, 'k');
    if Fen.CheckKings(slashSplit) != Normal {
      return Fen.FenInvalid;
    }

    // Check castling rights, en passant, halfmoves and fullmoves
    Fen.RankWidthIsLength(slashSplit[0]);
    Fen.RankWidthIsLength(slashSplit[7]);
    if Fen.CheckCastling(slashSplit, spaceSplit[2]) != Normal {
      return Fen.FenInvalid;
    }
    if Fen.CheckEnPassant(slashSplit, spaceSplit[3]) != Normal {
      return Fen.FenInvalid;
    }
    if Fen.CheckMoves(spaceSplit[4], spaceSplit[5]) != Normal {
      return Fen.FenInvalid;
    }
    return Fen.FenNormal;
  }

  /** `check_fen(line, white, black)`: the structural checks, then the
      position built from the line with the turn handed back to the side
      that has just moved, whose king must not be attacked. */
  method CheckFen(line: string) returns (verdict: Fen.FenVerdict)
    ensures verdict == Verdict(line)
  {
    verdict := Precheck(line);
    if verdict != Fen.FenNormal {
      return;
    }

    // Check that player turns and check are consistent
    StartGamePlayable(line);
    var game := new Position(line);
    game.turn := !game.turn;
    var king := game.GetKingCoordinates();
    var attacked := game.IsAttacked(king);
    if attacked {
      return Fen.FenInvalid;
    }
    return Fen.FenNormal;
  }
}
