/** Shared vocabulary of the engine: squares, boards, piece letters, the
    file/rank name tables, the exit-status codes and the piece-count table
    with its light/dark bishop buckets. */
module Chess {

  datatype Option<T> = None | Some(value: T)

  /** A square as the engine addresses it: `x` is the file index (0 = a),
      `y` the row index, row 0 being rank 8. */
  datatype Square = Square(x: int, y: int)

  /** A move as the generator lists it: from `orig` to `dest`. */
  datatype Move = Move(orig: Square, dest: Square)

  /** `pos`: 8 rows of 8 cells, each a piece letter or ' '. */
  type Board = seq<seq<char>>

  predicate InBounds(x: int, y: int) {
    0 <= x <= 7 && 0 <= y <= 7
  }

  predicate OnBoard(s: Square) {
    InBounds(s.x, s.y)
  }

  predicate IsBoard(b: Board) {
    |b| == 8 && forall y :: 0 <= y < 8 ==> |b[y]| == 8
  }

  /** The cell at `s`. */
  function At(b: Board, s: Square): char
    requires IsBoard(b) && OnBoard(s)
  {
    b[s.y][s.x]
  }

  /** The board with the cell at `s` replaced by `c`. */
  function Put(b: Board, s: Square, c: char): (r: Board)
    requires IsBoard(b) && OnBoard(s)
    ensures IsBoard(r) && At(r, s) == c
    ensures forall y, x :: 0 <= y < 8 && 0 <= x < 8 && (x != s.x || y != s.y) ==> r[y][x] == b[y][x]
  {
    b[s.y := b[s.y][s.x := c]]
  }

  /** Python's `str.isupper`/`str.islower`/`str.isdigit` on the ASCII characters
      the engine handles. */
  predicate IsUpper(c: char) { 'A' <= c <= 'Z' }
  predicate IsLower(c: char) { 'a' <= c <= 'z' }
  predicate IsDigit(c: char) { '0' <= c <= '9' }

  function DigitValue(c: char): (d: nat)
    requires IsDigit(c)
    ensures d <= 9
  {
    c as int - '0' as int
  }

  function DigitChar(d: nat): (c: char)
    requires d <= 9
    ensures IsDigit(c) && DigitValue(c) == d
  {
    ('0' as int + d) as char
  }

  function ToUpper(c: char): char {
    if IsLower(c) then (c as int - 32) as char else c
  }

  /** The twelve piece letters; upper case is white. */
  predicate IsPiece(c: char) {
    c in "KQRBNPkqrbnp"
  }

  /** The keys of the `pieces` table in board.py: the piece letters and ' '. */
  predicate IsPieceKey(c: char) {
    IsPiece(c) || c == ' '
  }

  /** Every cell holds a piece letter or is empty. */
  predicate ValidCells(b: Board) {
    IsBoard(b) && forall y, x :: 0 <= y < 8 && 0 <= x < 8 ==> IsPieceKey(b[y][x])
  }

  /** `inv_files`: file index to letter. */
  function FileName(x: int): (c: char)
    requires 0 <= x <= 7
    ensures 'a' <= c <= 'h' && FileIndex(c) == x
  {
    ('a' as int + x) as char
  }

  /** `files`: letter to file index. */
  function FileIndex(c: char): int
    requires 'a' <= c <= 'h'
  {
    c as int - 'a' as int
  }

  /** `inv_ranks`: row index to rank digit ('8' for row 0). */
  function RankName(y: int): (c: char)
    requires 0 <= y <= 7
    ensures '1' <= c <= '8' && RankIndex(c) == y
  {
    ('8' as int - y) as char
  }

  /** `ranks`: rank digit to row index. */
  function RankIndex(c: char): int
    requires '1' <= c <= '8'
  {
    '8' as int - c as int
  }

  /** Python's `str` of a non-negative integer. */
  function NatToString(n: nat): (s: string)
    ensures |s| >= 1 && forall i :: 0 <= i < |s| ==> IsDigit(s[i])
    decreases n
  {
    if n < 10 then [DigitChar(n)] else NatToString(n / 10) + [DigitChar(n % 10)]
  }

  /** Python's `str` of an integer. */
  function IntToString(n: int): string {
    if n < 0 then "-" + NatToString(-n) else NatToString(n)
  }

  /** The exit statuses of error.py that the core produces. */
  datatype Status =
    | Normal | WhiteWins | BlackWins | Stalemate | InsufficientMaterial
    | FiftyMoveRule | ThreefoldRepetition | InvalidFen

  function Code(s: Status): int {
    match s
    case Normal => 0
    case WhiteWins => 1
    case BlackWins => 2
    case Stalemate => 3
    case InsufficientMaterial => 4
    case FiftyMoveRule => 5
    case ThreefoldRepetition => 6
    case InvalidFen => 7
  }

  /** The keys of `piece_count`. */
  const CountKeys: set<string> :=
    {"K", "Q", "R", "dB", "lB", "N", "P", "k", "q", "r", "db", "lb", "n", "p"}

  /** Light squares are those whose file and row indices have the same parity. */
  predicate IsLight(x: int, y: int) {
    x % 2 == y % 2
  }

  /** The `piece_count` key a cell content counts under at (x, y): bishops by
      square colour, every other letter under itself. */
  function Bucket(c: char, x: int, y: int): string {
    if c == 'B' then (if IsLight(x, y) then "lB" else "dB")
    else if c == 'b' then (if IsLight(x, y) then "lb" else "db")
    else [c]
  }

  lemma BucketIsKey(c: char, x: int, y: int)
    ensures Bucket(c, x, y) in CountKeys <==> IsPiece(c)
  {
  }

  /** Number of cells of `row` from column `x` on that count under `key`. */
  function CountRow(row: seq<char>, y: int, key: string, x: nat): nat
    decreases |row| - x
  {
    if x >= |row| then 0
    else (if Bucket(row[x], x, y) == key then 1 else 0) + CountRow(row, y, key, x + 1)
  }

  /** Number of cells of rows `y..` of `b` that count under `key`. */
  function CountRows(b: Board, key: string, y: nat): nat
    decreases |b| - y
  {
    if y >= |b| then 0 else CountRow(b[y], y, key, 0) + CountRows(b, key, y + 1)
  }

  /** A recount of the board under `key`. */
  function CountBoard(b: Board, key: string): nat {
    CountRows(b, key, 0)
  }

  /** `piece_count` agrees with a recount of the board. */
  predicate CountsMatch(b: Board, counts: map<string, int>) {
    CountKeys <= counts.Keys && forall k :: k in CountKeys ==> counts[k] == CountBoard(b, k)
  }

  function Indicator(p: bool): nat { if p then 1 else 0 }

  lemma {:induction false} CountRowWrite(row: seq<char>, y: int, key: string, x: nat, i: nat, c: char)
    requires x <= i < |row|
    ensures CountRow(row[i := c], y, key, x) + Indicator(Bucket(row[i], i, y) == key)
         == CountRow(row, y, key, x) + Indicator(Bucket(c, i, y) == key)
    decreases |row| - x
  {
    if x < i {
      CountRowWrite(row, y, key, x + 1, i, c);
    } else {
      CountRowSame(row, row[i := c], y, key, x + 1);
    }
  }

  lemma {:induction false} CountRowSame(r1: seq<char>, r2: seq<char>, y: int, key: string, x: nat)
    requires |r1| == |r2|
    requires forall j :: x <= j < |r1| ==> r1[j] == r2[j]
    ensures CountRow(r1, y, key, x) == CountRow(r2, y, key, x)
    decreases |r1| - x
  {
    if x < |r1| {
      CountRowSame(r1, r2, y, key, x + 1);
    }
  }

  lemma {:induction false} CountRowsSame(b1: Board, b2: Board, key: string, y: nat)
    requires |b1| == |b2|
    requires forall j :: y <= j < |b1| ==> b1[j] == b2[j]
    ensures CountRows(b1, key, y) == CountRows(b2, key, y)
    decreases |b1| - y
  {
    if y < |b1| {
      CountRowsSame(b1, b2, key, y + 1);
    }
  }

  lemma {:induction false} CountRowsWrite(b: Board, key: string, y: nat, s: Square, c: char)
    requires IsBoard(b) && OnBoard(s) && y <= s.y
    ensures CountRows(Put(b, s, c), key, y) + Indicator(Bucket(At(b, s), s.x, s.y) == key)
         == CountRows(b, key, y) + Indicator(Bucket(c, s.x, s.y) == key)
    decreases 8 - y
  {
    var b' := Put(b, s, c);
    if y < s.y {
      CountRowsWrite(b, key, y + 1, s, c);
    } else {
      CountRowWrite(b[y], y, key, 0, s.x, c);
      CountRowsSame(b, b', key, y + 1);
    }
  }

  /** Writing `c` at `s` changes the recount under `key` by exactly the
      difference between the new and the old cell's bucket. */
  lemma CountBoardWrite(b: Board, key: string, s: Square, c: char)
    requires IsBoard(b) && OnBoard(s)
    ensures CountBoard(Put(b, s, c), key) + Indicator(Bucket(At(b, s), s.x, s.y) == key)
         == CountBoard(b, key) + Indicator(Bucket(c, s.x, s.y) == key)
  {
    CountRowsWrite(b, key, 0, s, c);
  }

  /** The count map after one cell write, when it agreed before. */
  function Recounted(counts: map<string, int>, old_: char, new_: char, s: Square): map<string, int>
    requires CountKeys <= counts.Keys
  {
    map k | k in counts.Keys ::
      counts[k] - Indicator(Bucket(old_, s.x, s.y) == k) + Indicator(Bucket(new_, s.x, s.y) == k)
  }

  /** Agreement survives a write when the counts are adjusted by the buckets
      the cell leaves and enters. */
  lemma CountsAfterWrite(b: Board, counts: map<string, int>, s: Square, c: char)
    requires IsBoard(b) && OnBoard(s) && CountsMatch(b, counts)
    ensures CountsMatch(Put(b, s, c), Recounted(counts, At(b, s), c, s))
  {
    forall k | k in CountKeys
      ensures Recounted(counts, At(b, s), c, s)[k] == CountBoard(Put(b, s, c), k)
    {
      CountBoardWrite(b, k, s, c);
    }
  }
}
