/** The move-text writer of pgn.py: the fixed tag header a game starts with
    and the tokens `update_pgn` appends for one move (a move number before
    white's move, castling marks, king moves). */
module Pgn {
  import opened Chess
  import Fen

  // ---------------------------------------------------------------------
  // set_up_pgn

  /** One tag pair line, `[Name "value"]`. */
  function TagLine(name: string, value: string): string {
    "[" + name + " \"" + value + "\"]"
  }

  /** The lines of the header: seven tag pairs, then an empty line. */
  const HeaderLines: seq<string> := [
    TagLine("Event", "The Rapture"), TagLine("Site", "Brisbane, QLD AUS"), TagLine("Date", "??"),
    TagLine("Round", ""), TagLine("White", ""), TagLine("Black", ""), TagLine("Result", "*"), ""
  ]

  /** Lines written one after another, each followed by a newline. */
  function Lines(ls: seq<string>): string {
    if |ls| == 0 then "" else ls[0] + "\n" + Lines(ls[1..])
  }

  /** `set_up_pgn`: the header lines, newline-terminated. */
  function SetUpPgn(): string {
    Lines(HeaderLines)
  }

  /** A tag line holds no line break when its name and value hold none. */
  lemma TagLineOneLine(name: string, value: string)
    requires '\n' !in name && '\n' !in value
    ensures '\n' !in TagLine(name, value)
  {
  }

  /** Splitting newline-terminated lines at the newlines gives the lines
      back, and the empty text after the last newline. */
  lemma {:induction false} SplitLines(ls: seq<string>)
    requires forall i :: 0 <= i < |ls| ==> '\n' !in ls[i]
    ensures Fen.Split(Lines(ls), '\n') == ls + [""]
  {
    if |ls| == 0 {
      Fen.SplitNoSep("", '\n');
    } else {
      SplitLines(ls[1..]);
      Fen.SplitAfterSep(ls[0], '\n', Lines(ls[1..]));
      assert [ls[0]] + (ls[1..] + [""]) == ls + [""];
    }
  }

  /** The header read back line by line: seven tag pairs, the last one
      `[Result "*"]`, then an empty line, and nothing after the final
      newline. */
  lemma HeaderReadBack()
    ensures var lines := Fen.Split(SetUpPgn(), '\n');
      |lines| == 9 && lines[..7] == HeaderLines[..7] && lines[6] == TagLine("Result", "*") &&
      lines[7] == "" && lines[8] == ""
  {
    TagLineOneLine("Event", "The Rapture");
    TagLineOneLine("Site", "Brisbane, QLD AUS");
    TagLineOneLine("Date", "??");
    TagLineOneLine("Round", "");
    TagLineOneLine("White", "");
    TagLineOneLine("Black", "");
    TagLineOneLine("Result", "*");
    SplitLines(HeaderLines);
  }

  // ---------------------------------------------------------------------
  // update_pgn, as a function of the position before the move

  /** The move number written before white's move, nothing before black's. */
  function MoveNumber(turn: bool, fullmove: int): string {
    if turn then IntToString(fullmove) + ". " else ""
  }

  /** King side and queen side castling shapes of `update_pgn`. */
  predicate ShortCastle(piece: char, start: Square, end: Square) {
    (piece == 'k' && start == Square(4, 0) && end == Square(6, 0)) ||
    (piece == 'K' && start == Square(4, 7) && end == Square(6, 7))
  }

  predicate LongCastle(piece: char, start: Square, end: Square) {
    (piece == 'k' && start == Square(4, 0) && end == Square(2, 0)) ||
    (piece == 'K' && start == Square(4, 7) && end == Square(2, 7))
  }

  /** The castling mark, with its trailing space. */
  function CastleMark(piece: char, start: Square, end: Square): string {
    if ShortCastle(piece, start, end) then "O-O "
    else if LongCastle(piece, start, end) then "O-O-O "
    else ""
  }

  /** The condition of the king token as Python groups it: `and` binds
      tighter than `or`, so a white king gets the token even when castling. */
  predicate KingTokenWritten(piece: char, castling: bool) {
    piece == 'K' || (piece == 'k' && !castling)
  }

  /** The king token: 'K', 'x' on a capture, the destination's file and
      rank names, a space. */
  function KingToken(endPiece: char, end: Square): string
    requires OnBoard(end)
  {
    (if endPiece == ' ' then "K" else "Kx") + [FileName(end.x), RankName(end.y)] + " "
  }

  /** Everything `update_pgn` appends for the move `start` to `end` made
      from the board `b`. */
  function MoveText(b: Board, turn: bool, fullmove: int, start: Square, end: Square): string
    requires IsBoard(b) && OnBoard(start) && OnBoard(end)
  {
    var piece, endPiece := At(b, start), At(b, end);
    var castling := ShortCastle(piece, start, end) || LongCastle(piece, start, end);
    MoveNumber(turn, fullmove) + CastleMark(piece, start, end) +
    (if KingTokenWritten(piece, castling) then KingToken(endPiece, end) else "")
  }

  /** A move of anything but a king adds only the move number. */
  lemma NonKingMoveText(b: Board, turn: bool, fullmove: int, start: Square, end: Square)
    requires IsBoard(b) && OnBoard(start) && OnBoard(end)
    requires At(b, start) != 'K' && At(b, start) != 'k'
    ensures MoveText(b, turn, fullmove, start, end) == MoveNumber(turn, fullmove)
  {
  }

  /** A king move that is not castling adds the number and the king token. */
  lemma KingMoveText(b: Board, turn: bool, fullmove: int, start: Square, end: Square)
    requires IsBoard(b) && OnBoard(start) && OnBoard(end)
    requires At(b, start) == 'K' || At(b, start) == 'k'
    requires !ShortCastle(At(b, start), start, end) && !LongCastle(At(b, start), start, end)
    ensures MoveText(b, turn, fullmove, start, end) == MoveNumber(turn, fullmove) + KingToken(At(b, end), end)
  {
  }

  /** The quirk of the grouping: white castling is written with the castling
      mark followed by a king token, black castling with the mark alone. */
  lemma CastlingText(b: Board, turn: bool, fullmove: int, start: Square, end: Square)
    requires IsBoard(b) && OnBoard(start) && OnBoard(end)
    requires ShortCastle(At(b, start), start, end) || LongCastle(At(b, start), start, end)
    ensures var mark := if end.x == 6 then "O-O " else "O-O-O ";
      MoveText(b, turn, fullmove, start, end) ==
        MoveNumber(turn, fullmove) + mark + (if At(b, start) == 'K' then KingToken(At(b, end), end) else "")
  {
  }

  /** The move number is there exactly when white moves, and it reads back
      as the move count. */
  lemma MoveNumberMeaning(turn: bool, fullmove: int)
    ensures |MoveNumber(turn, fullmove)| > 0 <==> turn
    ensures turn ==> Fen.ParseInt(MoveNumber(turn, fullmove)[..|MoveNumber(turn, fullmove)| - 2]) == Some(fullmove)
  {
    if turn {
      var s := IntToString(fullmove);
      assert MoveNumber(turn, fullmove)[..|MoveNumber(turn, fullmove)| - 2] == s;
      Fen.ParseIntOfString(fullmove);
    }
  }

  /** The king token names the destination: its last three characters are
      the file letter, the rank digit and a space, and they index back to
      `end`; 'x' is present exactly on a capture. */
  lemma KingTokenNamesSquare(endPiece: char, end: Square)
    requires OnBoard(end)
    ensures var t := KingToken(endPiece, end);
      |t| >= 4 && t[0] == 'K' && t[|t| - 1] == ' ' &&
      'a' <= t[|t| - 3] <= 'h' && FileIndex(t[|t| - 3]) == end.x &&
      '1' <= t[|t| - 2] <= '8' && RankIndex(t[|t| - 2]) == end.y &&
      (t[1] == 'x' <==> endPiece != ' ')
  {
  }
}
