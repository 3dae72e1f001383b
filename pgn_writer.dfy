/** `update_pgn` of pgn.py: it appends to the `pgn` field of a `Position`,
    so it is a method on the object, proved against `Pgn.MoveText`. */
module PgnWriter {
  import opened Chess
  import opened Board
  import Pgn

  /** `update_pgn(game, start, end)`, called before the move is made: the
      move number before white's move, the castling mark, then the king
      token under the grouping the source writes. Nothing but `pgn`
      changes. */
  method UpdatePgn(game: Position, start: Square, end: Square)
    requires IsBoard(game.pos) && OnBoard(start) && OnBoard(end)
    modifies game`pgn
    ensures game.pgn == old(game.pgn) + Pgn.MoveText(game.pos, game.turn, game.fullmove, start, end)
  {
    ghost var before := game.pgn;
    ghost var number := Pgn.MoveNumber(game.turn, game.fullmove);
    var x, y := start.x, start.y;
    var xNew, yNew := end.x, end.y;

    // Add move count
    if game.turn {
      game.pgn := game.pgn + (IntToString(game.fullmove) + ". ");
    }
    ghost var numbered := game.pgn;
    assert numbered == before + number;

    // The piece to move and the piece to move to
    var piece := game.pos[y][x];
    var endPiece := game.pos[yNew][xNew];

    // Add castling
    var castling := false;
    if (piece == 'k' && start == Square(4, 0) && end == Square(6, 0)) ||
       (piece == 'K' && start == Square(4, 7) && end == Square(6, 7)) {
      game.pgn := game.pgn + "O-O ";
      castling := true;
    } else if (piece == 'k' && start == Square(4, 0) && end == Square(2, 0)) ||
              (piece == 'K' && start == Square(4, 7) && end == Square(2, 7)) {
      game.pgn := game.pgn + "O-O-O ";
      castling := true;
    }
    assert game.pgn == numbered + Pgn.CastleMark(piece, start, end);
    ghost var marked := game.pgn;
    ghost var mark := Pgn.CastleMark(piece, start, end);
    assert castling == (Pgn.ShortCastle(piece, start, end) || Pgn.LongCastle(piece, start, end));
    ghost var token := if Pgn.KingTokenWritten(piece, castling) then Pgn.KingToken(endPiece, end) else "";
    assert Pgn.MoveText(game.pos, game.turn, game.fullmove, start, end) == number + mark + token;

    // Add king moves and captures
    if piece == 'K' || (piece == 'k' && !castling) {
      ghost var kingToken := Pgn.KingToken(endPiece, end);
      if endPiece == ' ' {
        assert "K" + [FileName(xNew)] + [RankName(yNew)] + " " == kingToken;
        game.pgn := game.pgn + ("K" + [FileName(xNew)] + [RankName(yNew)] + " ");
      } else {
        assert "Kx" + [FileName(xNew)] + [RankName(yNew)] + " " == kingToken;
        game.pgn := game.pgn + ("Kx" + [FileName(xNew)] + [RankName(yNew)] + " ");
      }
      assert game.pgn == marked + kingToken;
    } else {
      assert game.pgn == marked + token;
    }
    AppendAssoc(before, number, mark);
    AppendAssoc(before, number + mark, token);
  }
}
