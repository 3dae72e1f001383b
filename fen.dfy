/** The Forsyth-Edwards Notation codec of fen.py (the notation of section 16.1
    of the PGN Standard): structural validation, decoding of the six fields,
    and re-encoding of a position. */
module Fen {
  import opened Chess

  // ---------------------------------------------------------------------
  // Python's str.split(sep) and its inverse, sep.join

  /** `s.split(sep)`: the maximal sep-free pieces, empty ones included. */
  function Split(s: string, sep: char): (parts: seq<string>)
    ensures |parts| >= 1
    ensures forall i :: 0 <= i < |parts| ==> sep !in parts[i]
    decreases |s|
  {
    if |s| == 0 then [""]
    else
      var rest := Split(s[1..], sep);
      if s[0] == sep then [""] + rest
      else [[s[0]] + rest[0]] + rest[1..]
  }

  /** `sep.join(parts)`. */
  function Join(parts: seq<string>, sep: char): string
    requires |parts| >= 1
    decreases |parts|
  {
    if |parts| == 1 then parts[0] else parts[0] + [sep] + Join(parts[1..], sep)
  }

  lemma {:induction false} JoinSplit(s: string, sep: char)
    ensures Join(Split(s, sep), sep) == s
    decreases |s|
  {
    if |s| > 0 {
      JoinSplit(s[1..], sep);
      var rest := Split(s[1..], sep);
      var parts := Split(s, sep);
      assert s == [s[0]] + s[1..];
      if s[0] == sep {
        assert parts == [""] + rest && parts[1..] == rest;
      } else {
        assert parts == [[s[0]] + rest[0]] + rest[1..];
        if |rest| > 1 {
          assert parts[1..] == rest[1..];
          assert Join(rest, sep) == rest[0] + [sep] + Join(rest[1..], sep);
        }
      }
    }
  }

  lemma {:induction false} SplitNoSep(a: string, sep: char)
    requires sep !in a
    ensures Split(a, sep) == [a]
    decreases |a|
  {
    if |a| > 0 {
      SplitNoSep(a[1..], sep);
      assert a[0] != sep;
      assert Split(a, sep) == [[a[0]] + a[1..]];
      assert [a[0]] + a[1..] == a;
    }
  }

  lemma {:induction false} SplitAfterSep(a: string, sep: char, t: string)
    requires sep !in a
    ensures Split(a + [sep] + t, sep) == [a] + Split(t, sep)
    decreases |a|
  {
    if |a| == 0 {
      assert a + [sep] + t == [sep] + t;
      assert ([sep] + t)[1..] == t;
    } else {
      var u := a + [sep] + t;
      assert u[0] == a[0] != sep;
      assert u[1..] == a[1..] + [sep] + t;
      SplitAfterSep(a[1..], sep, t);
      var rest := Split(u[1..], sep);
      assert rest == [a[1..]] + Split(t, sep);
      assert Split(u, sep) == [[a[0]] + rest[0]] + rest[1..];
      assert [a[0]] + a[1..] == a;
      assert rest[1..] == Split(t, sep);
    }
  }

  /** Splitting a join of sep-free pieces gives the pieces back. */
  lemma {:induction false} SplitJoin(parts: seq<string>, sep: char)
    requires |parts| >= 1
    requires forall i :: 0 <= i < |parts| ==> sep !in parts[i]
    ensures Split(Join(parts, sep), sep) == parts
    decreases |parts|
  {
    if |parts| == 1 {
      SplitNoSep(parts[0], sep);
    } else {
      SplitJoin(parts[1..], sep);
      SplitAfterSep(parts[0], sep, Join(parts[1..], sep));
    }
  }

  // ---------------------------------------------------------------------
  // Python's int() on a string

  /** The ASCII characters Python's `int()` strips as whitespace. */
  predicate IsSpace(c: char) {
    c == ' ' || 9 <= c as int <= 13 || 28 <= c as int <= 31
  }

  function StripLeft(s: string): string
    decreases |s|
  {
    if |s| > 0 && IsSpace(s[0]) then StripLeft(s[1..]) else s
  }

  function StripRight(s: string): string
    decreases |s|
  {
    if |s| > 0 && IsSpace(s[|s| - 1]) then StripRight(s[..|s| - 1]) else s
  }

  /** Decimal digits, optionally grouped by single underscores between digits. */
  predicate DigitGroups(s: string) {
    |s| >= 1 && IsDigit(s[0]) && IsDigit(s[|s| - 1]) &&
    (forall i :: 0 <= i < |s| ==> IsDigit(s[i]) || s[i] == '_') &&
    (forall i :: 0 <= i < |s| - 1 ==> !(s[i] == '_' && s[i + 1] == '_'))
  }

  /** The value of the digits of `s`, underscores skipped. */
  function DigitsValue(s: string): nat
    decreases |s|
  {
    if |s| == 0 then 0
    else if IsDigit(s[|s| - 1]) then DigitsValue(s[..|s| - 1]) * 10 + DigitValue(s[|s| - 1])
    else DigitsValue(s[..|s| - 1])
  }

  /** Python's `int(s)` for a decimal string: None where it raises ValueError. */
  function ParseInt(s: string): Option<int> {
    var t := StripRight(StripLeft(s));
    if |t| == 0 then None
    else
      var neg := t[0] == '-';
      var body := if t[0] == '-' || t[0] == '+' then t[1..] else t;
      if !DigitGroups(body) then None
      else
        var v: int := DigitsValue(body);
        Some(if neg then -v else v)
  }

  lemma {:induction false} DigitsValueOfString(n: nat)
    ensures DigitsValue(NatToString(n)) == n
    decreases n
  {
    if n >= 10 {
      DigitsValueOfString(n / 10);
      var s := NatToString(n);
      assert s[..|s| - 1] == NatToString(n / 10);
    }
  }

  lemma NoSpaceStrip(s: string)
    requires |s| >= 1 && !IsSpace(s[0]) && !IsSpace(s[|s| - 1])
    ensures StripRight(StripLeft(s)) == s
  {
  }

  lemma DigitsAreGroups(s: string)
    requires |s| >= 1 && forall i :: 0 <= i < |s| ==> IsDigit(s[i])
    ensures DigitGroups(s)
  {
  }

  /** `int(str(n)) == n`: the clocks survive a print and re-parse. */
  lemma ParseIntOfString(n: int)
    ensures ParseInt(IntToString(n)) == Some(n)
  {
    var m: nat := if n < 0 then -n else n;
    var digits := NatToString(m);
    var s := IntToString(n);
    DigitsValueOfString(m);
    DigitsAreGroups(digits);
    if n < 0 {
      assert s == "-" + digits;
      assert s[0] == '-' && s[|s| - 1] == digits[|digits| - 1];
      NoSpaceStrip(s);
      assert s[1..] == digits;
    } else {
      assert s == digits;
      assert IsDigit(s[0]) && IsDigit(s[|s| - 1]);
      NoSpaceStrip(s);
    }
  }

  /** `check_moves`: the halfmove field parses to an integer >= 0 and the
      fullmove field to one >= 1. */
  function CheckMoves(halfmoves: string, fullmoves: string): Status {
    var h, f := ParseInt(halfmoves), ParseInt(fullmoves);
    if h.None? || f.None? then InvalidFen
    else if h.value < 0 then InvalidFen
    else if f.value <= 0 then InvalidFen
    else Normal
  }

  lemma CheckMovesSpec(halfmoves: string, fullmoves: string)
    ensures CheckMoves(halfmoves, fullmoves) == Normal <==>
      (exists h: nat, f: nat :: ParseInt(halfmoves) == Some(h) && ParseInt(fullmoves) == Some(f) && f >= 1)
    ensures CheckMoves(halfmoves, fullmoves) != InvalidFen ==> CheckMoves(halfmoves, fullmoves) == Normal
  {
    if CheckMoves(halfmoves, fullmoves) == Normal {
      var h: nat, f: nat := ParseInt(halfmoves).value, ParseInt(fullmoves).value;
      assert ParseInt(halfmoves) == Some(h) && ParseInt(fullmoves) == Some(f) && f >= 1;
    }
  }

  // ---------------------------------------------------------------------
  // One rank: run-length decoding, width, validation, encoding

  function Spaces(n: nat): (r: seq<char>)
    ensures |r| == n && forall i :: 0 <= i < n ==> r[i] == ' '
  {
    seq(n, _ => ' ')
  }

  /** The cells one character of a rank string stands for. */
  function Cells(c: char): seq<char> {
    if IsDigit(c) then Spaces(DigitValue(c)) else [c]
  }

  /** The row `get_position` builds from a rank string: a digit n becomes n
      empty cells, any other character one cell. */
  function ExpandRank(r: string): seq<char>
    decreases |r|
  {
    if |r| == 0 then [] else Cells(r[0]) + ExpandRank(r[1..])
  }

  lemma {:induction false} ExpandConcat(a: string, b: string)
    ensures ExpandRank(a + b) == ExpandRank(a) + ExpandRank(b)
    decreases |a|
  {
    if |a| > 0 {
      assert (a + b)[0] == a[0];
      assert (a + b)[1..] == a[1..] + b;
      ExpandConcat(a[1..], b);
      assert ExpandRank(a + b) == Cells(a[0]) + ExpandRank(a[1..] + b);
    } else {
      assert a + b == b;
    }
  }

  lemma ExpandSnoc(r: string, i: nat)
    requires i < |r|
    ensures ExpandRank(r[..i + 1]) == ExpandRank(r[..i]) + Cells(r[i])
  {
    assert r[..i + 1] == r[..i] + [r[i]];
    ExpandConcat(r[..i], [r[i]]);
  }

  /** How many cells one character counts for in `check_rank`'s width loop. */
  function Width(c: char): nat {
    if IsDigit(c) then DigitValue(c) else 1
  }

  /** `item_count` of `check_rank`: the sum of the widths. */
  function RankWidth(r: string): nat
    decreases |r|
  {
    if |r| == 0 then 0 else RankWidth(r[..|r| - 1]) + Width(r[|r| - 1])
  }

  /** The width the validator computes is the length of the decoded row. */
  lemma {:induction false} RankWidthIsLength(r: string)
    ensures RankWidth(r) == |ExpandRank(r)|
    decreases |r|
  {
    if |r| > 0 {
      RankWidthIsLength(r[..|r| - 1]);
      ExpandSnoc(r, |r| - 1);
      assert r[..|r|] == r;
    }
  }

  predicate NoAdjacentDigits(r: string) {
    forall i :: 0 <= i < |r| - 1 ==> !(IsDigit(r[i]) && IsDigit(r[i + 1]))
  }

  /** Characters `check_rank` lets through: keys of the `pieces` table or digits. */
  predicate RankChar(c: char) {
    IsPieceKey(c) || IsDigit(c)
  }

  /** What `check_rank` accepts. */
  predicate RankOk(r: string) {
    NoAdjacentDigits(r) && (forall i :: 0 <= i < |r| ==> RankChar(r[i])) && RankWidth(r) == 8
  }

  /** The first position of a character `check_rank` refuses, or |r|. */
  function FirstBad(r: string): (i: nat)
    ensures i <= |r|
    ensures forall j :: 0 <= j < i ==> RankChar(r[j])
    ensures i < |r| ==> !RankChar(r[i])
    decreases |r|
  {
    if |r| == 0 then 0 else if !RankChar(r[0]) then 0 else 1 + FirstBad(r[1..])
  }

  function Occurrences(s: string, c: char): nat
    decreases |s|
  {
    if |s| == 0 then 0 else Occurrences(s[..|s| - 1], c) + Indicator(s[|s| - 1] == c)
  }

  lemma {:induction false} OccurrencesPositive(s: string, c: char)
    ensures Occurrences(s, c) > 0 <==> c in s
    decreases |s|
  {
    if |s| > 0 {
      OccurrencesPositive(s[..|s| - 1], c);
      assert s == s[..|s| - 1] + [s[|s| - 1]];
    }
  }

  /** How far `check_rank` counts a king letter into the caller's `kings`
      list: nothing when adjacent digits stop it first, otherwise every
      occurrence before the first refused character. */
  function KingsSeen(r: string, king: char): nat {
    if NoAdjacentDigits(r) then Occurrences(r[..FirstBad(r)], king) else 0
  }

  lemma FirstBadIs(r: string, i: nat)
    requires i <= |r| && (forall j :: 0 <= j < i ==> RankChar(r[j])) && (i < |r| ==> !RankChar(r[i]))
    ensures FirstBad(r) == i
  {
  }

  /** `check_rank`: rejects adjacent digits, refused characters and a
      run-length width other than 8, counting kings into `kings` as it goes. */
  method CheckRank(rank: string, kings: array<int>) returns (code: Status)
    requires kings.Length == 2
    modifies kings
    ensures code == (if RankOk(rank) then Normal else InvalidFen)
    ensures kings[0] == old(kings[0]) + KingsSeen(rank, 'K')
    ensures kings[1] == old(kings[1]) + KingsSeen(rank, 'k')
  {
    // Check for consecutive digits
    var separated := DigitsSeparated(rank);
    if !separated {
      return InvalidFen;
    }

    // Check for invalid characters and count the kings
    var k0, k1 := kings[0], kings[1];
    for j := 0 to |rank|
      invariant forall m :: 0 <= m < j ==> RankChar(rank[m])
      invariant kings[0] == k0 + Occurrences(rank[..j], 'K')
      invariant kings[1] == k1 + Occurrences(rank[..j], 'k')
    {
      ghost var next := rank[..j + 1];
      assert next[..j] == rank[..j] && next[j] == rank[j];
      var item := rank[j];
      if !IsPieceKey(item) && !IsDigit(item) {
        FirstBadIs(rank, j);
        return InvalidFen;
      } else if item == 'K' {
        kings[0] := kings[0] + 1;
      } else if item == 'k' {
        kings[1] := kings[1] + 1;
      }
    }
    assert rank[..|rank|] == rank;
    FirstBadIs(rank, |rank|);

    // Check that the row is eight cells wide
    var itemCount := ItemCount(rank);
    if itemCount != 8 {
      return InvalidFen;
    }
    return Normal;
  }

  /** The first loop of `check_rank`: no digit directly followed by another. */
  method DigitsSeparated(rank: string) returns (ok: bool)
    ensures ok == NoAdjacentDigits(rank)
  {
    var i := 0;
    while i < |rank|
      invariant 0 <= i <= |rank|
      invariant forall j :: 0 <= j < i && j < |rank| - 1 ==> !(IsDigit(rank[j]) && IsDigit(rank[j + 1]))
    {
      if IsDigit(rank[i]) && i != |rank| - 1 && IsDigit(rank[i + 1]) {
        return false;
      }
      i := i + 1;
    }
    return true;
  }

  /** The last loop of `check_rank`: `item_count`, one per letter and the
      value of each digit. */
  method ItemCount(rank: string) returns (itemCount: nat)
    ensures itemCount == RankWidth(rank)
  {
    itemCount := 0;
    for j := 0 to |rank|
      invariant itemCount == RankWidth(rank[..j])
    {
      ghost var next := rank[..j + 1];
      assert next[..j] == rank[..j] && next[j] == rank[j];
      if !IsDigit(rank[j]) {
        itemCount := itemCount + 1;
      } else {
        itemCount := itemCount + DigitValue(rank[j]);
      }
    }
    assert rank[..|rank|] == rank;
  }

  /** str(space_count) when the run is non-empty. */
  function Flush(count: nat): string {
    if count != 0 then IntToString(count) else ""
  }

  /** The run-length encoding `get_fen` emits for the rest of a row when
      `count` empty cells are pending. */
  function EncodeCells(cells: seq<char>, count: nat): string
    decreases |cells|
  {
    if |cells| == 0 then Flush(count)
    else if cells[0] != ' ' then Flush(count) + [cells[0]] + EncodeCells(cells[1..], 0)
    else EncodeCells(cells[1..], count + 1)
  }

  lemma {:induction false} EncodeSpaces(n: nat, rest: seq<char>, count: nat)
    ensures EncodeCells(Spaces(n) + rest, count) == EncodeCells(rest, count + n)
    decreases n
  {
    if n > 0 {
      assert (Spaces(n) + rest)[0] == ' ';
      assert (Spaces(n) + rest)[1..] == Spaces(n - 1) + rest;
      EncodeSpaces(n - 1, rest, count + 1);
    } else {
      assert Spaces(n) + rest == rest;
    }
  }

  /** A rank string as `get_fen` writes one: piece letters and the digits
      1 to 9, never two digits in a row. */
  predicate CanonicalRank(r: string) {
    NoAdjacentDigits(r) && forall i :: 0 <= i < |r| ==> IsPiece(r[i]) || '1' <= r[i] <= '9'
  }

  lemma CanonicalTail(r: string)
    requires |r| > 0 && CanonicalRank(r)
    ensures CanonicalRank(r[1..])
    ensures IsDigit(r[0]) ==> 1 <= DigitValue(r[0]) && Flush(DigitValue(r[0])) == [r[0]]
    ensures IsDigit(r[0]) ==> |r| == 1 || !IsDigit(r[1])
    ensures !IsDigit(r[0]) ==> r[0] != ' ' && Cells(r[0]) == [r[0]]
  {
  }

  /** A canonical rank string is reproduced by run-length encoding its
      decoded row; `pending` empty cells are flushed first. */
  lemma {:induction false} EncodeExpand(r: string, pending: nat)
    requires CanonicalRank(r)
    requires pending > 0 ==> |r| == 0 || !IsDigit(r[0])
    ensures EncodeCells(ExpandRank(r), pending) == Flush(pending) + r
    decreases |r|
  {
    if |r| > 0 {
      var c := r[0];
      CanonicalTail(r);
      assert [c] + r[1..] == r;
      if IsDigit(c) {
        var d := DigitValue(c);
        EncodeSpaces(d, ExpandRank(r[1..]), 0);
        EncodeExpand(r[1..], d);
      } else {
        EncodeExpand(r[1..], 0);
      }
    }
  }

  // ---------------------------------------------------------------------
  // The board field

  /** The eight (or however many) rank strings of the board field. */
  function BoardRanks(line: string): seq<string> {
    Split(Split(line, ' ')[0], '/')
  }

  /** `get_position`'s rows. */
  function DecodeBoard(ranks: seq<string>): (b: Board)
    ensures |b| == |ranks| && forall i :: 0 <= i < |ranks| ==> b[i] == ExpandRank(ranks[i])
  {
    seq(|ranks|, i requires 0 <= i < |ranks| => ExpandRank(ranks[i]))
  }

  lemma DecodeSnoc(ranks: seq<string>, y: nat)
    requires y < |ranks|
    ensures DecodeBoard(ranks[..y + 1]) == DecodeBoard(ranks[..y]) + [ExpandRank(ranks[y])]
  {
    var a, b := DecodeBoard(ranks[..y + 1]), DecodeBoard(ranks[..y]) + [ExpandRank(ranks[y])];
    assert |a| == |b|;
    forall i | 0 <= i < |a| ensures a[i] == b[i] {
      assert ranks[..y + 1][i] == ranks[i];
      if i < y {
        assert ranks[..y][i] == ranks[i];
      }
    }
  }

  /** For eight accepted rank strings, `get_position` yields an 8x8 board whose
      cells are piece letters or empty. */
  lemma DecodeShape(ranks: seq<string>)
    requires |ranks| == 8 && forall i :: 0 <= i < 8 ==> RankOk(ranks[i])
    ensures IsBoard(DecodeBoard(ranks))
    ensures ValidCells(DecodeBoard(ranks))
  {
    forall y | 0 <= y < 8
      ensures |DecodeBoard(ranks)[y]| == 8
      ensures forall x :: 0 <= x < 8 ==> IsPieceKey(DecodeBoard(ranks)[y][x])
    {
      RankWidthIsLength(ranks[y]);
      ExpandKeys(ranks[y]);
    }
  }

  lemma {:induction false} ExpandKeys(r: string)
    requires forall i :: 0 <= i < |r| ==> RankChar(r[i])
    ensures forall x :: 0 <= x < |ExpandRank(r)| ==> IsPieceKey(ExpandRank(r)[x])
    decreases |r|
  {
    if |r| > 0 {
      ExpandKeys(r[1..]);
    }
  }

  /** Counting a cell appended at the end of a row. */
  lemma {:induction false} CountRowSnoc(row: seq<char>, y: int, key: string, x: nat, c: char)
    requires x <= |row|
    ensures CountRow(row + [c], y, key, x) == CountRow(row, y, key, x) + Indicator(Bucket(c, |row|, y) == key)
    decreases |row| - x
  {
    if x < |row| {
      CountRowSnoc(row, y, key, x + 1, c);
    }
  }

  /** Counting a row appended below the others. */
  lemma {:induction false} CountRowsSnoc(b: Board, row: seq<char>, key: string, y: nat)
    requires y <= |b|
    ensures CountRows(b + [row], key, y) == CountRows(b, key, y) + CountRow(row, |b|, key, 0)
    decreases |b| - y
  {
    if y < |b| {
      assert (b + [row])[y] == b[y];
      CountRowsSnoc(b, row, key, y + 1);
    }
  }

  /** The characters `get_position` can count without a missing key:
      piece letters and digits. */
  predicate DecodableRank(r: string) {
    forall i :: 0 <= i < |r| ==> IsPiece(r[i]) || IsDigit(r[i])
  }

  /** `base` with the recount of `row` (at row index `y`) added to each key. */
  function AddRow(base: map<string, int>, row: seq<char>, y: int): map<string, int> {
    map k | k in base :: base[k] + (if k in CountKeys then CountRow(row, y, k, 0) else 0)
  }

  /** `base` with the recount of the rows of `b` added to each key. */
  function AddRows(base: map<string, int>, b: Board): map<string, int> {
    map k | k in base :: base[k] + (if k in CountKeys then CountRows(b, k, 0) else 0)
  }

  lemma AddRowPiece(base: map<string, int>, row: seq<char>, y: int, c: char)
    requires CountKeys <= base.Keys && IsPiece(c)
    ensures Bucket(c, |row|, y) in AddRow(base, row, y)
    ensures AddRow(base, row + [c], y) ==
      AddRow(base, row, y)[Bucket(c, |row|, y) := AddRow(base, row, y)[Bucket(c, |row|, y)] + 1]
  {
    var key := Bucket(c, |row|, y);
    BucketIsKey(c, |row|, y);
    var m0, m1 := AddRow(base, row, y), AddRow(base, row + [c], y);
    var m2 := m0[key := m0[key] + 1];
    assert m1.Keys == m2.Keys;
    forall k | k in m1
      ensures m1[k] == m2[k]
    {
      if k in CountKeys {
        CountRowSnoc(row, y, k, 0, c);
      }
    }
  }

  lemma AddRowEmpty(base: map<string, int>, y: int)
    ensures AddRow(base, [], y) == base
  {
  }

  lemma AddRowPieceStep(counts: map<string, int>, base: map<string, int>, row: seq<char>, y: int, c: char)
    requires CountKeys <= base.Keys && IsPiece(c) && counts == AddRow(base, row, y)
    ensures Bucket(c, |row|, y) in counts
    ensures counts[Bucket(c, |row|, y) := counts[Bucket(c, |row|, y)] + 1] == AddRow(base, row + [c], y)
  {
    AddRowPiece(base, row, y, c);
  }

  lemma AddRowSpaces(base: map<string, int>, row: seq<char>, y: int, n: nat)
    ensures AddRow(base, row + Spaces(n), y) == AddRow(base, row, y)
  {
    forall k | k in CountKeys
      ensures CountRow(row + Spaces(n), y, k, 0) == CountRow(row, y, k, 0)
    {
      CountRowSpaces(row, y, k, n);
    }
  }

  lemma AddRowsSnoc(base: map<string, int>, b: Board, row: seq<char>)
    ensures AddRows(base, b + [row]) == AddRow(AddRows(base, b), row, |b|)
  {
    forall k | k in CountKeys
      ensures CountRows(b + [row], k, 0) == CountRows(b, k, 0) + CountRow(row, |b|, k, 0)
    {
      CountRowsSnoc(b, row, k, 0);
    }
  }

  /** One iteration of `get_position`'s outer loop: the row of rank string
      `item` (row index `y`), counting each piece into `counts`. */
  method DecodeRank(item: string, y: int, before: map<string, int>) returns (rank: seq<char>, counts: map<string, int>)
    requires DecodableRank(item) && CountKeys <= before.Keys
    ensures rank == ExpandRank(item)
    ensures counts == AddRow(before, rank, y)
  {
    var x := 0;
    rank := [];
    counts := before;
    AddRowEmpty(before, y);
    for j := 0 to |item|
      invariant rank == ExpandRank(item[..j]) && x == |rank|
      invariant counts == AddRow(before, rank, y)
    {
      ExpandSnoc(item, j);
      rank, counts, x := DecodeItem(item[j], x, y, rank, counts, before);
    }
    assert item[..|item|] == item;
  }

  /** The body of `get_position`'s inner loop for the character `item2`
      at column `x`: a piece is placed and counted, a digit adds that many
      empty cells. */
  method DecodeItem(item2: char, x: int, y: int, rank: seq<char>, counts: map<string, int>,
                    ghost before: map<string, int>)
    returns (rank': seq<char>, counts': map<string, int>, x': int)
    requires IsPiece(item2) || IsDigit(item2)
    requires CountKeys <= before.Keys && counts == AddRow(before, rank, y) && x == |rank|
    ensures rank' == rank + Cells(item2) && x' == |rank'|
    ensures counts' == AddRow(before, rank', y)
  {
    if !IsDigit(item2) {
      AddRowPieceStep(counts, before, rank, y, item2);
      rank' := rank + [item2];
      var key := Bucket(item2, x, y);
      counts' := counts[key := counts[key] + 1];
      x' := x + 1;
    } else {
      AddRowSpaces(before, rank, y, DigitValue(item2));
      rank' := rank + Spaces(DigitValue(item2));
      counts' := counts;
      x' := x + DigitValue(item2);
    }
  }

  /** `get_position`: decodes the board field row by row and adds to the
      caller's `piece_count` the recount of the decoded board. */
  method GetPosition(fenString: string, pieceCount: map<string, int>)
    returns (pos: Board, counts: map<string, int>)
    requires forall i :: 0 <= i < |BoardRanks(fenString)| ==> DecodableRank(BoardRanks(fenString)[i])
    requires CountKeys <= pieceCount.Keys
    ensures pos == DecodeBoard(BoardRanks(fenString))
    ensures counts.Keys == pieceCount.Keys
    ensures forall k :: k in CountKeys ==> counts[k] == pieceCount[k] + CountBoard(pos, k)
    ensures forall k :: k in counts && k !in CountKeys ==> counts[k] == pieceCount[k]
  {
    var position := BoardRanks(fenString);
    pos := [];
    counts := pieceCount;
    var y := 0;
    while y < |position|
      invariant 0 <= y <= |position| && |pos| == y
      invariant pos == DecodeBoard(position[..y])
      invariant counts == AddRows(pieceCount, pos)
    {
      var item := position[y];
      var rank;
      rank, counts := DecodeRank(item, y, counts);
      AddRowsSnoc(pieceCount, pos, rank);
      DecodeSnoc(position, y);
      pos := pos + [rank];
      y := y + 1;
    }
    assert position[..|position|] == position;
  }

  lemma {:induction false} CountRowSpaces(row: seq<char>, y: int, key: string, n: nat)
    ensures key in CountKeys ==> CountRow(row + Spaces(n), y, key, 0) == CountRow(row, y, key, 0)
    decreases n
  {
    if n > 0 {
      assert row + Spaces(n) == (row + Spaces(n - 1)) + [' '];
      CountRowSnoc(row + Spaces(n - 1), y, key, 0, ' ');
      assert Bucket(' ', |row + Spaces(n - 1)|, y) == " ";
      CountRowSpaces(row, y, key, n - 1);
    } else {
      assert row + Spaces(n) == row;
    }
  }

  // ---------------------------------------------------------------------
  // Turn, castling, en passant fields

  /** `get_turn`: 'w' is white (true), anything else black. */
  function GetTurn(c: string): bool {
    c == "w"
  }

  /** `CASTLING_OPTIONS`: the sixteen castling tokens and the rights they
      grant, in the order white king side, white queen side, black king side,
      black queen side. */
  const CastlingOptions: map<string, seq<bool>> := map[
    "KQkq" := [true, true, true, true], "KQk" := [true, true, true, false],
    "KQq" := [true, true, false, true], "Kkq" := [true, false, true, true],
    "Qkq" := [false, true, true, true], "Kk" := [true, false, true, false],
    "Kq" := [true, false, false, true], "Qk" := [false, true, true, false],
    "Qq" := [false, true, false, true], "KQ" := [true, true, false, false],
    "kq" := [false, false, true, true], "K" := [true, false, false, false],
    "k" := [false, false, true, false], "Q" := [false, true, false, false],
    "q" := [false, false, false, true], "-" := [false, false, false, false]
  ]

  /** `get_en_passant`: '-' is no square, otherwise file letter and rank digit. */
  function GetEnPassant(s: string): Option<Square>
    requires s != "-" ==> |s| == 2 && 'a' <= s[0] <= 'h' && '1' <= s[1] <= '8'
  {
    if s != "-" then Some(Square(FileIndex(s[0]), RankIndex(s[1]))) else None
  }

  // ---------------------------------------------------------------------
  // Validators used by check_fen

  /** Index of the first occurrence of `c` in `s` (`s.index(c)`). */
  function IndexOf<T(==)>(s: seq<T>, c: T): (i: nat)
    requires c in s
    ensures i < |s| && s[i] == c && c !in s[..i]
  {
    if s[0] == c then 0 else 1 + IndexOf(s[1..], c)
  }

  /** Where `check_kings` places a king: on the last rank string (among the
      first `n`) that contains it, at (index of the letter in the string,
      `board_lines.index(rank)`). */
  function KingPlace(ranks: seq<string>, n: nat, king: char): (r: Option<(int, int)>)
    requires n <= |ranks|
    ensures r.Some? ==> 0 <= r.value.1 < |ranks| && king in ranks[r.value.1]
    ensures r.Some? ==> 0 <= r.value.0 < |ranks[r.value.1]| && ranks[r.value.1][r.value.0] == king
  {
    if n == 0 then None
    else if king in ranks[n - 1] then Some((IndexOf(ranks[n - 1], king), IndexOf(ranks, ranks[n - 1])))
    else KingPlace(ranks, n - 1, king)
  }

  lemma {:induction false} KingPlaceFound(ranks: seq<string>, n: nat, king: char, y: nat)
    requires y < n <= |ranks| && king in ranks[y]
    ensures KingPlace(ranks, n, king).Some?
    decreases n
  {
    if n - 1 != y && king !in ranks[n - 1] {
      KingPlaceFound(ranks, n - 1, king, y);
    }
  }

  lemma {:induction false} KingPlaceSkip(ranks: seq<string>, n: nat, m: nat, king: char)
    requires m <= n <= |ranks| && forall i :: m <= i < n ==> king !in ranks[i]
    ensures KingPlace(ranks, n, king) == KingPlace(ranks, m, king)
    decreases n
  {
    if n > m {
      KingPlaceSkip(ranks, n - 1, m, king);
    }
  }

  /** `check_kings` as written: the kings are adjacent when their string
      indices and row indices both differ by at most one. */
  function CheckKings(ranks: seq<string>): Status
    requires KingPlace(ranks, |ranks|, 'K').Some? && KingPlace(ranks, |ranks|, 'k').Some?
  {
    var (x1, y1) := KingPlace(ranks, |ranks|, 'K').value;
    var (x2, y2) := KingPlace(ranks, |ranks|, 'k').value;
    if -1 <= x1 - x2 <= 1 && -1 <= y1 - y2 <= 1 then InvalidFen else Normal
  }

  /** `check_kings` as evidently intended: the king's file is the number of
      cells its rank string covers before it, not its index in the string. */
  function CheckKingsByFile(ranks: seq<string>): Status
    requires KingPlace(ranks, |ranks|, 'K').Some? && KingPlace(ranks, |ranks|, 'k').Some?
  {
    var (_, y1) := KingPlace(ranks, |ranks|, 'K').value;
    var (_, y2) := KingPlace(ranks, |ranks|, 'k').value;
    var x1, x2 := CountBefore(ranks[y1], 'K'), CountBefore(ranks[y2], 'k');
    if -1 <= x1 - x2 <= 1 && -1 <= y1 - y2 <= 1 then InvalidFen else Normal
  }

  /** `count1`/`count2` of `check_castling`: the cells the rank string covers
      before the first `king` (all of it when there is none). */
  function CountBefore(r: string, king: char): nat
    decreases |r|
  {
    if |r| == 0 then 0 else if r[0] == king then 0 else Width(r[0]) + CountBefore(r[1..], king)
  }

  /** The check `check_castling` makes for one letter of the token. */
  predicate CastlingLetterOk(ranks: seq<string>, c: char)
    requires |ranks| == 8 && |ranks[0]| > 0 && |ranks[7]| > 0
  {
    var white, black := ranks[7], ranks[0];
    if c == 'K' then CountBefore(white, 'K') == 4 && white[|white| - 1] == 'R'
    else if c == 'Q' then CountBefore(white, 'K') == 4 && white[0] == 'R'
    else if c == 'k' then CountBefore(black, 'k') == 4 && black[|black| - 1] == 'r'
    else if c == 'q' then CountBefore(black, 'k') == 4 && black[0] == 'r'
    else true
  }

  /** `check_castling`. */
  function CheckCastling(ranks: seq<string>, castling: string): Status
    requires |ranks| == 8 && |ranks[0]| > 0 && |ranks[7]| > 0
  {
    if castling !in CastlingOptions then InvalidFen
    else if exists i :: 0 <= i < |castling| && !CastlingLetterOk(ranks, castling[i]) then InvalidFen
    else Normal
  }

  /** The loop of `check_en_passant` over the rank string, `count` cells
      covered so far: the cell at file `x` must be reached exactly by a
      `pawn` letter. */
  predicate PawnScan(rank: string, x: int, pawn: char, count: int)
    decreases |rank|
  {
    if |rank| == 0 then count == x + 1
    else
      var count' := count + Width(rank[0]);
      if count' == x + 1 && rank[0] != pawn then false
      else if count' >= x + 1 then count' == x + 1
      else PawnScan(rank[1..], x, pawn, count')
  }

  /** `check_en_passant`. */
  function CheckEnPassant(ranks: seq<string>, enPassant: string): Status
    requires |ranks| == 8
  {
    if enPassant == "-" then Normal
    else if |enPassant| != 2 then InvalidFen
    else if !('a' <= enPassant[0] <= 'h') || (enPassant[1] != '6' && enPassant[1] != '3') then InvalidFen
    else
      var x := FileIndex(enPassant[0]);
      var rank := if enPassant[1] == '3' then ranks[4] else ranks[3];
      var pawn := if enPassant[1] == '3' then 'P' else 'p';
      if PawnScan(rank, x, pawn, 0) then Normal else InvalidFen
  }

  /** What `check_fen` returns: `Normal` (0), the Python value `True` (1) for a
      pawn on the first or last rank string, or `INVALID_FEN` (7). */
  datatype FenVerdict = FenNormal | FenPawnOnBackRank | FenInvalid

  function VerdictCode(v: FenVerdict): int {
    match v
    case FenNormal => 0
    case FenPawnOnBackRank => 1
    case FenInvalid => 7
  }

  /** Total count of a letter over the rank strings (`kings` after the loop). */
  function TotalOccurrences(ranks: seq<string>, c: char): nat
    decreases |ranks|
  {
    if |ranks| == 0 then 0 else TotalOccurrences(ranks[..|ranks| - 1], c) + Occurrences(ranks[|ranks| - 1], c)
  }

  lemma {:induction false} TotalOccurrencesFound(ranks: seq<string>, c: char)
    requires TotalOccurrences(ranks, c) > 0
    ensures exists y :: 0 <= y < |ranks| && c in ranks[y]
    decreases |ranks|
  {
    var n := |ranks|;
    if c in ranks[n - 1] {
    } else {
      OccurrencesPositive(ranks[n - 1], c);
      TotalOccurrencesFound(ranks[..n - 1], c);
      var y :| 0 <= y < n - 1 && c in ranks[..n - 1][y];
      assert ranks[y] == ranks[..n - 1][y];
    }
  }

  /** The structural checks of `check_fen`, everything before it builds the
      position to test whether the side that just moved is in check. */
  function FenPrecheck(line: string): FenVerdict {
    var fields := Split(line, ' ');
    if |fields| != 6 then FenInvalid
    else
      var ranks := Split(fields[0], '/');
      if |ranks| != 8 then FenInvalid
      else if 'P' in ranks[0] || 'p' in ranks[0] || 'P' in ranks[7] || 'p' in ranks[7] then FenPawnOnBackRank
      else if exists i :: 0 <= i < 8 && !RankOk(ranks[i]) then FenInvalid
      else if TotalOccurrences(ranks, 'K') != 1 || TotalOccurrences(ranks, 'k') != 1 then FenInvalid
      else if fields[1] != "w" && fields[1] != "b" then FenInvalid
      else
        TotalOccurrencesFound(ranks, 'K');
        TotalOccurrencesFound(ranks, 'k');
        var yK :| 0 <= yK < 8 && 'K' in ranks[yK];
        var yk :| 0 <= yk < 8 && 'k' in ranks[yk];
        KingPlaceFound(ranks, 8, 'K', yK);
        KingPlaceFound(ranks, 8, 'k', yk);
        if CheckKings(ranks) != Normal then FenInvalid
        else if CheckCastling(ranks, fields[2]) != Normal then FenInvalid
        else if CheckEnPassant(ranks, fields[3]) != Normal then FenInvalid
        else if CheckMoves(fields[4], fields[5]) != Normal then FenInvalid
        else FenNormal
  }

  /** A line that passes the structural checks has eight rank strings and a
      king of each colour in them. */
  lemma PrecheckKingsPlaced(line: string)
    requires FenPrecheck(line) == FenNormal
    ensures |BoardRanks(line)| == 8
    ensures KingPlace(BoardRanks(line), 8, 'K').Some? && KingPlace(BoardRanks(line), 8, 'k').Some?
  {
    var ranks := BoardRanks(line);
    TotalOccurrencesFound(ranks, 'K');
    TotalOccurrencesFound(ranks, 'k');
    var yK :| 0 <= yK < 8 && 'K' in ranks[yK];
    var yk :| 0 <= yk < 8 && 'k' in ranks[yk];
    KingPlaceFound(ranks, 8, 'K', yK);
    KingPlaceFound(ranks, 8, 'k', yk);
  }

  /** The king test `check_kings` evidently intends, on a line that passes
      the structural checks (which run the test as written). */
  predicate KingsApartByFile(line: string)
    requires FenPrecheck(line) == FenNormal
  {
    PrecheckKingsPlaced(line);
    CheckKingsByFile(BoardRanks(line)) == Normal
  }

  // ---------------------------------------------------------------------
  // Serialisation: get_fen

  /** The board field `get_fen` writes for the rows `rows` (the last rows of
      the board): each row run-length encoded, a '/' after every row but the
      last. */
  function EncodeRows(rows: seq<seq<char>>): string
    decreases |rows|
  {
    if |rows| == 0 then ""
    else EncodeCells(rows[0], 0) + (if |rows| > 1 then "/" else "") + EncodeRows(rows[1..])
  }

  /** The castling field: KQkq letters of the rights held, '-' when none. */
  function CastlingText(castling: seq<bool>): string
    requires |castling| == 4
  {
    (if castling[0] then "K" else "") + (if castling[1] then "Q" else "") +
    (if castling[2] then "k" else "") + (if castling[3] then "q" else "") +
    (if !castling[0] && !castling[1] && !castling[2] && !castling[3] then "-" else "")
  }

  /** The en passant field: the file letter and rank digit found in the
      lookup tables, '-' for none. */
  function EnPassantText(ep: Option<Square>): string {
    match ep
    case None => "-"
    case Some(s) =>
      (if 0 <= s.x <= 7 then [FileName(s.x)] else "") + (if 0 <= s.y <= 7 then [RankName(s.y)] else "")
  }

  /** The whole string `get_fen` returns. */
  function FenString(pos: Board, turn: bool, castling: seq<bool>, ep: Option<Square>,
                     halfmove: int, fullmove: int): string
    requires IsBoard(pos) && |castling| == 4
  {
    EncodeRows(pos) + " " + (if turn then "w" else "b") + " " + CastlingText(castling) + " " +
    EnPassantText(ep) + " " + IntToString(halfmove) + " " + IntToString(fullmove)
  }

  /** The inner loop of `get_fen`: one row, run-length encoded. */
  method RankText(rank: seq<char>) returns (fen: string)
    ensures fen == EncodeCells(rank, 0)
  {
    fen := "";
    var spaceCount := 0;
    for j := 0 to |rank|
      invariant fen + EncodeCells(rank[j..], spaceCount) == EncodeCells(rank, 0)
    {
      assert rank[j..][0] == rank[j] && rank[j..][1..] == rank[j + 1..];
      var item := rank[j];
      if item != ' ' {
        if spaceCount != 0 {
          fen := fen + IntToString(spaceCount);
          spaceCount := 0;
        }
        fen := fen + [item];
      } else {
        spaceCount := spaceCount + 1;
      }
    }
    assert rank[|rank|..] == [];
    if spaceCount != 0 {
      fen := fen + IntToString(spaceCount);
    }
  }

  /** How many rights in `c` are false (`count` in `get_fen`). */
  function FalseCount(c: seq<bool>): nat
    decreases |c|
  {
    if |c| == 0 then 0 else FalseCount(c[..|c| - 1]) + Indicator(!c[|c| - 1])
  }

  lemma FalseCountNone(c: seq<bool>)
    requires |c| == 4
    ensures FalseCount(c) == 4 <==> !c[0] && !c[1] && !c[2] && !c[3]
  {
    assert c[..3][..2] == c[..2] && c[..2][..1] == c[..1] && c[..1][..0] == [];
    assert FalseCount(c) == FalseCount(c[..3]) + Indicator(!c[3]);
    assert FalseCount(c[..3]) == FalseCount(c[..2]) + Indicator(!c[2]);
    assert FalseCount(c[..2]) == FalseCount(c[..1]) + Indicator(!c[1]);
    assert FalseCount(c[..1]) == Indicator(!c[0]);
  }

  /** The castling part of `get_fen`: the letters of the rights held, then
      '-' when all four are false. */
  method CastlingField(castling: seq<bool>) returns (castleText: string)
    requires |castling| == 4
    ensures castleText == CastlingText(castling)
  {
    castleText := "";
    for k := 0 to 4
      invariant castleText == (if k > 0 && castling[0] then "K" else "") + (if k > 1 && castling[1] then "Q" else "") +
                              (if k > 2 && castling[2] then "k" else "") + (if k > 3 && castling[3] then "q" else "")
    {
      var value := castling[k];
      if k == 0 && value { castleText := castleText + "K"; }
      if k == 1 && value { castleText := castleText + "Q"; }
      if k == 2 && value { castleText := castleText + "k"; }
      if k == 3 && value { castleText := castleText + "q"; }
    }
    var count := 0;
    for k := 0 to 4
      invariant count == FalseCount(castling[..k])
    {
      assert castling[..k + 1][..k] == castling[..k];
      if !castling[k] {
        count := count + 1;
      }
    }
    assert castling[..4] == castling;
    FalseCountNone(castling);
    if count == 4 {
      castleText := castleText + "-";
    }
  }

  /** The board part of `get_fen`: the rows encoded, a '/' after each of the
      first seven. */
  method BoardText(pos: Board) returns (fen: string)
    requires |pos| == 8
    ensures fen == EncodeRows(pos)
  {
    fen := "";
    var i := 0;
    while i < 8
      invariant 0 <= i <= 8
      invariant fen + EncodeRows(pos[i..]) == EncodeRows(pos[0..])
    {
      var rank := pos[i];
      ghost var before := fen;
      var text := RankText(rank);
      fen := fen + text;
      i := i + 1;
      if i != 8 {
        fen := fen + "/";
      }
      RowsStep(pos, i - 1, before, text);
    }
    assert pos[8..] == [] && pos[0..] == pos;
  }

  lemma RowsStep(pos: Board, i: nat, before: string, text: string)
    requires i < |pos| == 8 && text == EncodeCells(pos[i], 0)
    ensures before + EncodeRows(pos[i..]) == (before + text + (if i + 1 != 8 then "/" else "")) + EncodeRows(pos[i + 1..])
  {
    assert pos[i..][0] == pos[i] && pos[i..][1..] == pos[i + 1..];
  }

  /** `get_fen`, accumulating the string with a running count of empty cells. */
  method GetFen(pos: Board, turn: bool, castling: seq<bool>, enPassant: Option<Square>,
                halfmove: int, fullmove: int) returns (fen: string)
    requires IsBoard(pos) && |castling| == 4
    ensures fen == FenString(pos, turn, castling, enPassant, halfmove, fullmove)
  {
    // Construct the board part of the fen
    fen := BoardText(pos);
    ghost var board := fen;
    fen := fen + " ";

    // Add whose turn
    if turn {
      fen := fen + "w";
    } else {
      fen := fen + "b";
    }
    fen := fen + " ";
    ghost var beforeCastling := fen;
    assert beforeCastling == board + " " + (if turn then "w" else "b") + " ";

    // Add the castling
    var castleText := CastlingField(castling);
    fen := fen + castleText + " ";
    ghost var beforeEp := fen;
    assert beforeEp == beforeCastling + CastlingText(castling) + " ";

    // Add en passant square
    if enPassant.Some? {
      var sq := enPassant.value;
      if 0 <= sq.x <= 7 {
        fen := fen + [FileName(sq.x)];
      }
      if 0 <= sq.y <= 7 {
        fen := fen + [RankName(sq.y)];
      }
    } else {
      fen := fen + "-";
    }
    assert fen == beforeEp + EnPassantText(enPassant);
    fen := fen + " ";

    // Half and full moves
    fen := fen + IntToString(halfmove);
    fen := fen + " ";
    fen := fen + IntToString(fullmove);
    assert fen == beforeEp + EnPassantText(enPassant) + " " + IntToString(halfmove) + " " + IntToString(fullmove);
  }

  // ---------------------------------------------------------------------
  // What the validators mean on the decoded board

  /** The index of the first `c` in `s`, or |s| when there is none. */
  function FirstIndex(s: seq<char>, c: char): (i: nat)
    ensures i <= |s| && c !in s[..i] && (i < |s| ==> s[i] == c)
    ensures forall j :: 0 <= j < i ==> s[j] != c
    decreases |s|
  {
    if |s| == 0 then 0 else if s[0] == c then 0 else 1 + FirstIndex(s[1..], c)
  }

  lemma {:induction false} FirstIndexAfter(a: seq<char>, b: seq<char>, c: char)
    requires c !in a
    ensures FirstIndex(a + b, c) == |a| + FirstIndex(b, c)
    decreases |a|
  {
    if |a| > 0 {
      assert (a + b)[0] == a[0] && (a + b)[1..] == a[1..] + b;
      FirstIndexAfter(a[1..], b, c);
    } else {
      assert a + b == b;
    }
  }

  /** The count `check_castling` takes before a king letter is the file of
      the first such king on the decoded row (8 when the row has none). */
  lemma {:induction false} CountBeforeIsFile(r: string, c: char)
    requires c != ' ' && !IsDigit(c)
    ensures CountBefore(r, c) == FirstIndex(ExpandRank(r), c)
    decreases |r|
  {
    if |r| > 0 {
      CountBeforeIsFile(r[1..], c);
      if r[0] != c {
        assert c !in Cells(r[0]);
        FirstIndexAfter(Cells(r[0]), ExpandRank(r[1..]), c);
      }
    }
  }

  /** A character of a rank string that is not a digit shows up in the
      decoded row at the file its prefix covers. */
  lemma {:induction false} ExpandAt(r: string, i: nat)
    requires i < |r| && !IsDigit(r[i])
    ensures |ExpandRank(r[..i])| < |ExpandRank(r)| && ExpandRank(r)[|ExpandRank(r[..i])|] == r[i]
  {
    assert r == r[..i] + [r[i]] + r[i + 1..];
    ExpandConcat(r[..i] + [r[i]], r[i + 1..]);
    ExpandConcat(r[..i], [r[i]]);
  }

  /** The first and last cells of a decoded canonical rank are its first and
      last characters when those are letters, and empty otherwise. */
  lemma {:induction false} ExpandEnds(r: string)
    requires CanonicalRank(r) && |r| > 0
    ensures |ExpandRank(r)| > 0
    ensures ExpandRank(r)[0] == (if IsDigit(r[0]) then ' ' else r[0])
    ensures ExpandRank(r)[|ExpandRank(r)| - 1] == (if IsDigit(r[|r| - 1]) then ' ' else r[|r| - 1])
    decreases |r|
  {
    var last := r[|r| - 1];
    assert r == r[..|r| - 1] + [last];
    ExpandConcat(r[..|r| - 1], [last]);
    assert IsDigit(last) ==> DigitValue(last) >= 1;
    if |r| > 1 {
      CanonicalTail(r);
      assert IsDigit(r[0]) ==> DigitValue(r[0]) >= 1;
      assert ExpandRank(r) == Cells(r[0]) + ExpandRank(r[1..]);
    }
  }

  /** What one castling letter demands of the decoded board: the king of that
      colour first met at file e of its home row, and its rook in the
      corner of that side. */
  predicate RightSupported(b: Board, c: char)
    requires IsBoard(b)
  {
    if c == 'K' then FirstIndex(b[7], 'K') == 4 && b[7][7] == 'R'
    else if c == 'Q' then FirstIndex(b[7], 'K') == 4 && b[7][0] == 'R'
    else if c == 'k' then FirstIndex(b[0], 'k') == 4 && b[0][7] == 'r'
    else if c == 'q' then FirstIndex(b[0], 'k') == 4 && b[0][0] == 'r'
    else true
  }

  /** One castling letter passes `check_castling`'s test exactly when the
      decoded board supports it. */
  lemma CastlingLetterMeaning(ranks: seq<string>, c: char)
    requires |ranks| == 8 && |ranks[0]| > 0 && |ranks[7]| > 0
    requires IsBoard(DecodeBoard(ranks))
    requires CanonicalRank(ranks[0]) && CanonicalRank(ranks[7])
    ensures CastlingLetterOk(ranks, c) <==> RightSupported(DecodeBoard(ranks), c)
  {
    var b := DecodeBoard(ranks);
    ExpandEnds(ranks[0]);
    ExpandEnds(ranks[7]);
    if c == 'K' || c == 'Q' {
      CountBeforeIsFile(ranks[7], 'K');
    } else if c == 'k' || c == 'q' {
      CountBeforeIsFile(ranks[0], 'k');
    }
  }

  /** `check_castling` accepts a token exactly when it is one of the sixteen
      and the decoded board supports every right it names. */
  lemma CheckCastlingMeaning(ranks: seq<string>, castling: string)
    requires |ranks| == 8 && forall i :: 0 <= i < 8 ==> RankOk(ranks[i])
    requires CanonicalRank(ranks[0]) && CanonicalRank(ranks[7])
    ensures |ranks[0]| > 0 && |ranks[7]| > 0 && IsBoard(DecodeBoard(ranks))
    ensures CheckCastling(ranks, castling) == Normal <==>
      castling in CastlingOptions &&
      forall i :: 0 <= i < |castling| ==> RightSupported(DecodeBoard(ranks), castling[i])
  {
    DecodeShape(ranks);
    assert RankWidth(ranks[0]) == 8 && RankWidth(ranks[7]) == 8;
    assert |ranks[0]| > 0 && |ranks[7]| > 0;
    forall i | 0 <= i < |castling|
      ensures CastlingLetterOk(ranks, castling[i]) <==> RightSupported(DecodeBoard(ranks), castling[i])
    {
      CastlingLetterMeaning(ranks, castling[i]);
    }
  }

  /** The en passant scan succeeds exactly when the decoded cell at file `x`
      (counted from `count` cells in) is the pawn letter. */
  lemma {:induction false} PawnScanMeaning(r: string, x: int, pawn: char, count: int)
    requires 0 <= count <= x && pawn != ' ' && !IsDigit(pawn)
    ensures PawnScan(r, x, pawn, count) <==> x - count < |ExpandRank(r)| && ExpandRank(r)[x - count] == pawn
    decreases |r|
  {
    if |r| > 0 {
      var count' := count + Width(r[0]);
      assert ExpandRank(r) == Cells(r[0]) + ExpandRank(r[1..]);
      if count' < x + 1 {
        PawnScanMeaning(r[1..], x, pawn, count');
      }
    }
  }

  /** `check_en_passant` accepts '-' or a square on rank 3 (6) whose cell one
      row towards the centre holds a white (black) pawn. */
  lemma CheckEnPassantMeaning(ranks: seq<string>, enPassant: string)
    requires |ranks| == 8 && forall i :: 0 <= i < 8 ==> RankOk(ranks[i])
    ensures IsBoard(DecodeBoard(ranks))
    ensures CheckEnPassant(ranks, enPassant) == Normal <==>
      enPassant == "-" ||
      (|enPassant| == 2 && 'a' <= enPassant[0] <= 'h' &&
       ((enPassant[1] == '3' && DecodeBoard(ranks)[4][FileIndex(enPassant[0])] == 'P') ||
        (enPassant[1] == '6' && DecodeBoard(ranks)[3][FileIndex(enPassant[0])] == 'p')))
  {
    DecodeShape(ranks);
    if enPassant != "-" && |enPassant| == 2 && 'a' <= enPassant[0] <= 'h' {
      var x := FileIndex(enPassant[0]);
      PawnScanMeaning(ranks[4], x, 'P', 0);
      PawnScanMeaning(ranks[3], x, 'p', 0);
    }
  }

  /** The castling token of every entry of the table is what `get_fen`
      writes back for its rights. */
  lemma CastlingOptionsRoundTrip(token: string)
    requires token in CastlingOptions
    ensures |CastlingOptions[token]| == 4 && CastlingText(CastlingOptions[token]) == token
  {
  }

  /** Decoding then encoding the en passant field gives it back. */
  lemma EnPassantRoundTrip(s: string)
    requires s != "-" ==> |s| == 2 && 'a' <= s[0] <= 'h' && '1' <= s[1] <= '8'
    ensures EnPassantText(GetEnPassant(s)) == s
  {
    if s != "-" {
      assert [s[0]] + [s[1]] == s;
    }
  }

  /** Decoding then encoding canonical rank strings gives the board field
      back. */
  lemma {:induction false} BoardRoundTrip(ranks: seq<string>)
    requires |ranks| >= 1 && forall i :: 0 <= i < |ranks| ==> CanonicalRank(ranks[i])
    ensures EncodeRows(DecodeBoard(ranks)) == Join(ranks, '/')
    decreases |ranks|
  {
    EncodeExpand(ranks[0], 0);
    if |ranks| > 1 {
      assert DecodeBoard(ranks)[1..] == DecodeBoard(ranks[1..]);
      BoardRoundTrip(ranks[1..]);
    }
  }

  /** A record in the form `get_fen` writes: rank strings with no '0' and
      clocks written without sign, padding or leading zeros. */
  predicate CanonicalFen(line: string) {
    var fields := Split(line, ' ');
    |fields| == 6 && |Split(fields[0], '/')| == 8 &&
    (forall i :: 0 <= i < 8 ==> CanonicalRank(Split(fields[0], '/')[i])) &&
    ParseInt(fields[4]).Some? && IntToString(ParseInt(fields[4]).value) == fields[4] &&
    ParseInt(fields[5]).Some? && IntToString(ParseInt(fields[5]).value) == fields[5]
  }

  lemma Join6(f: seq<string>, sep: char)
    requires |f| == 6
    ensures Join(f, sep) == f[0] + [sep] + f[1] + [sep] + f[2] + [sep] + f[3] + [sep] + f[4] + [sep] + f[5]
  {
    assert f[1..][1..] == f[2..] && f[2..][1..] == f[3..] && f[3..][1..] == f[4..] && f[4..][1..] == f[5..];
    assert Join(f[5..], sep) == f[5];
    assert Join(f[4..], sep) == f[4] + [sep] + f[5];
    assert Join(f[3..], sep) == f[3] + [sep] + (f[4] + [sep] + f[5]);
    assert Join(f[2..], sep) == f[2] + [sep] + (f[3] + [sep] + (f[4] + [sep] + f[5]));
    assert Join(f[1..], sep) == f[1] + [sep] + (f[2] + [sep] + (f[3] + [sep] + (f[4] + [sep] + f[5])));
  }

  /** A record the checks accept, written canonically, is reproduced exactly
      by `get_fen` from the values the constructor decodes. */
  lemma FenRoundTrip(line: string)
    requires FenPrecheck(line) == FenNormal && CanonicalFen(line)
    ensures var fields := Split(line, ' ');
      var ranks := BoardRanks(line);
      |ranks| == 8 && IsBoard(DecodeBoard(ranks)) && fields[2] in CastlingOptions &&
      |CastlingOptions[fields[2]]| == 4 &&
      (fields[3] != "-" ==> |fields[3]| == 2 && 'a' <= fields[3][0] <= 'h' && '1' <= fields[3][1] <= '8') &&
      FenString(DecodeBoard(ranks), GetTurn(fields[1]), CastlingOptions[fields[2]], GetEnPassant(fields[3]),
                ParseInt(fields[4]).value, ParseInt(fields[5]).value) == line
  {
    var fields := Split(line, ' ');
    var ranks := BoardRanks(line);
    DecodeShape(ranks);
    CastlingOptionsRoundTrip(fields[2]);
    EnPassantRoundTrip(fields[3]);
    BoardRoundTrip(ranks);
    JoinSplit(fields[0], '/');
    JoinSplit(line, ' ');
    Join6(fields, ' ');
  }

  // ---------------------------------------------------------------------
  // check_kings: string index against file

  /** Chebyshev adjacency: the squares touch (or coincide). */
  predicate Touching(a: Square, b: Square) {
    -1 <= a.x - b.x <= 1 && -1 <= a.y - b.y <= 1
  }

  /** A digit followed by a letter decodes to that many empty cells, then
      the letter. */
  lemma ExpandDigitLetter(d: char, c: char)
    requires '1' <= d <= '9' && !IsDigit(c)
    ensures ExpandRank([d, c]) == Spaces(DigitValue(d)) + [c]
  {
    assert [d, c][0] == d && [d, c][1..] == [c];
    assert [c][0] == c && [c][1..] == [];
    assert ExpandRank([c]) == Cells(c) + ExpandRank([]);
    assert ExpandRank([d, c]) == Cells(d) + ExpandRank([c]);
  }

  lemma ExpandBlackCorner()
    ensures |ExpandRank("7k")| == 8 && ExpandRank("7k")[7] == 'k'
  {
    ExpandDigitLetter('7', 'k');
  }

  lemma ExpandSecondFile()
    ensures |ExpandRank("1K6")| == 8 && ExpandRank("1K6")[1] == 'K'
  {
    var r := "1K6";
    assert r == "1K" + "6";
    ExpandConcat("1K", "6");
    ExpandDigitLetter('1', 'K');
    assert ExpandRank("6") == Spaces(6) + ExpandRank("");
  }

  lemma ExpandSeventhFile()
    ensures |ExpandRank("BBBBBBK1")| == 8 && ExpandRank("BBBBBBK1")[6] == 'K'
  {
    ExpandAt("BBBBBBK1", 6);
    RankWidthIsLength("BBBBBBK1"[..6]);
    RankWidthIsLength("BBBBBBK1");
  }

  /** Eight rank strings: `top` and `row` above six empty ranks. */
  function TwoRanks(top: string, row: string): (ranks: seq<string>)
    ensures |ranks| == 8 && ranks[0] == top && ranks[1] == row
    ensures forall i :: 2 <= i < 8 ==> ranks[i] == "8"
  {
    [top, row] + seq(6, _ => "8")
  }

  /** Where `check_kings` places the kings when the black king is on the
      top rank string and the white king on the next. */
  lemma TwoRanksKingPlace(top: string, row: string)
    requires 'k' in top && 'k' !in row && 'K' in row && 'K' !in top
    ensures KingPlace(TwoRanks(top, row), 8, 'K') == Some((IndexOf(row, 'K') as int, 1))
    ensures KingPlace(TwoRanks(top, row), 8, 'k') == Some((IndexOf(top, 'k') as int, 0))
  {
    var ranks := TwoRanks(top, row);
    assert 'K' !in "8" && 'k' !in "8";
    KingPlaceSkip(ranks, 8, 2, 'K');
    KingPlaceSkip(ranks, 8, 2, 'k');
    KingPlaceSkip(ranks, 2, 1, 'k');
    assert ranks[0] != row;
  }

  /** As written, `check_kings` accepts "7k/BBBBBBK1/8/8/8/8/8/8", whose
      kings stand on g7 and h8 (string index 6 against 1); the file-based
      check rejects it. */
  lemma CheckKingsMissesTouchingKings()
    ensures var ranks := TwoRanks("7k", "BBBBBBK1");
      KingPlace(ranks, 8, 'K').Some? && KingPlace(ranks, 8, 'k').Some? &&
      CheckKings(ranks) == Normal && DecodeBoard(ranks)[1][6] == 'K' && DecodeBoard(ranks)[0][7] == 'k' &&
      Touching(Square(6, 1), Square(7, 0)) && CheckKingsByFile(ranks) == InvalidFen
  {
    ExpandBlackCorner();
    ExpandSeventhFile();
    assert "BBBBBBK1"[6] == 'K' && "7k"[1] == 'k';
    TwoRanksKingPlace("7k", "BBBBBBK1");
    assert IndexOf("BBBBBBK1", 'K') == 6;
    assert IndexOf("7k", 'k') == 1;
  }

  /** As written, `check_kings` rejects "7k/1K6/8/8/8/8/8/8", whose kings
      are six files apart (string index 1 for both). */
  lemma CheckKingsRejectsDistantKings()
    ensures var ranks := TwoRanks("7k", "1K6");
      KingPlace(ranks, 8, 'K').Some? && KingPlace(ranks, 8, 'k').Some? &&
      CheckKings(ranks) == InvalidFen && DecodeBoard(ranks)[1][1] == 'K' && DecodeBoard(ranks)[0][7] == 'k' &&
      !Touching(Square(1, 1), Square(7, 0)) && CheckKingsByFile(ranks) == Normal
  {
    ExpandBlackCorner();
    ExpandSecondFile();
    assert "1K6"[1] == 'K' && "7k"[1] == 'k';
    TwoRanksKingPlace("7k", "1K6");
    assert IndexOf("1K6", 'K') == 1;
    assert IndexOf("7k", 'k') == 1;
  }

  lemma {:induction false} OccurrencesConcat(a: string, b: string, c: char)
    ensures Occurrences(a + b, c) == Occurrences(a, c) + Occurrences(b, c)
    decreases |b|
  {
    if |b| == 0 {
      assert a + b == a;
    } else {
      assert (a + b)[..|a + b| - 1] == a + b[..|b| - 1];
      OccurrencesConcat(a, b[..|b| - 1], c);
    }
  }

  /** A piece letter occurs as often in a decoded row as in its rank string. */
  lemma {:induction false} OccurrencesExpand(r: string, c: char)
    requires c != ' ' && !IsDigit(c)
    ensures Occurrences(ExpandRank(r), c) == Occurrences(r, c)
    decreases |r|
  {
    if |r| > 0 {
      OccurrencesExpand(r[1..], c);
      assert r == [r[0]] + r[1..];
      OccurrencesConcat([r[0]], r[1..], c);
      OccurrencesConcat(Cells(r[0]), ExpandRank(r[1..]), c);
      assert [r[0]][..0] == [];
      if IsDigit(r[0]) {
        OccurrencesPositive(Cells(r[0]), c);
      } else {
        assert Cells(r[0])[..0] == [];
      }
    }
  }

  lemma OccurrencesTwo(s: string, c: char, i: nat, j: nat)
    requires i < j < |s| && s[i] == c && s[j] == c
    ensures Occurrences(s, c) >= 2
  {
    assert s == s[..j] + [s[j]] + s[j + 1..];
    OccurrencesConcat(s[..j] + [s[j]], s[j + 1..], c);
    OccurrencesConcat(s[..j], [s[j]], c);
    assert [s[j]][..0] == [];
    assert s[..j][i] == c;
    OccurrencesPositive(s[..j], c);
  }

  lemma {:induction false} TotalAtLeast(ranks: seq<string>, c: char, i: nat)
    requires i < |ranks|
    ensures TotalOccurrences(ranks, c) >= Occurrences(ranks[i], c)
    decreases |ranks|
  {
    if i < |ranks| - 1 {
      TotalAtLeast(ranks[..|ranks| - 1], c, i);
    }
  }

  lemma {:induction false} TotalAtLeastTwo(ranks: seq<string>, c: char, i: nat, j: nat)
    requires i < j < |ranks|
    ensures TotalOccurrences(ranks, c) >= Occurrences(ranks[i], c) + Occurrences(ranks[j], c)
    decreases |ranks|
  {
    var front := ranks[..|ranks| - 1];
    if j == |ranks| - 1 {
      TotalAtLeast(front, c, i);
    } else {
      TotalAtLeastTwo(front, c, i, j);
    }
  }

  /** With a single `king` among the rank strings, the file-based check puts
      it on the one square of the decoded board that holds it. */
  lemma KingSquareByFile(ranks: seq<string>, king: char)
    requires |ranks| == 8 && forall i :: 0 <= i < 8 ==> RankOk(ranks[i])
    requires king == 'K' || king == 'k'
    requires TotalOccurrences(ranks, king) == 1
    ensures KingPlace(ranks, 8, king).Some?
    ensures IsBoard(DecodeBoard(ranks))
    ensures var y := KingPlace(ranks, 8, king).value.1;
      var x := CountBefore(ranks[y], king);
      0 <= x < 8 && DecodeBoard(ranks)[y][x] == king &&
      forall s :: OnBoard(s) && At(DecodeBoard(ranks), s) == king ==> s == Square(x, y)
  {
    var b := DecodeBoard(ranks);
    DecodeShape(ranks);
    TotalOccurrencesFound(ranks, king);
    var y0 :| 0 <= y0 < 8 && king in ranks[y0];
    KingPlaceFound(ranks, 8, king, y0);
    var y := KingPlace(ranks, 8, king).value.1;
    var row := ranks[y];
    var x := CountBefore(row, king);
    CountBeforeIsFile(row, king);
    OccurrencesExpand(row, king);
    OccurrencesPositive(row, king);
    OccurrencesPositive(b[y], king);
    RankWidthIsLength(row);
    TotalAtLeast(ranks, king, y);
    assert king in row && b[y] == ExpandRank(row) && |b[y]| == 8;
    forall s | OnBoard(s) && At(b, s) == king
      ensures s == Square(x, y)
    {
      assert b[s.y] == ExpandRank(ranks[s.y]) && b[s.y][s.x] == king;
      OneKingRow(ranks, king, s.y, y);
      OneKingCell(b[y], king, s.x);
    }
  }

  /** A letter that occurs once among the rank strings occurs in one rank. */
  lemma OneKingRow(ranks: seq<string>, king: char, y1: nat, y2: nat)
    requires king != ' ' && !IsDigit(king) && TotalOccurrences(ranks, king) == 1
    requires y1 < |ranks| && y2 < |ranks|
    requires king in ExpandRank(ranks[y1]) && king in ranks[y2]
    ensures y1 == y2
  {
    OccurrencesExpand(ranks[y1], king);
    OccurrencesPositive(ExpandRank(ranks[y1]), king);
    OccurrencesPositive(ranks[y1], king);
    OccurrencesPositive(ranks[y2], king);
    if y1 < y2 {
      TotalAtLeastTwo(ranks, king, y1, y2);
    } else if y1 > y2 {
      TotalAtLeastTwo(ranks, king, y2, y1);
    }
  }

  /** In a row holding `king` at most once, its one cell is the first. */
  lemma OneKingCell(row: seq<char>, king: char, x: nat)
    requires x < |row| && row[x] == king && Occurrences(row, king) <= 1
    ensures x == FirstIndex(row, king)
  {
    var first := FirstIndex(row, king);
    if first < x {
      OccurrencesTwo(row, king, first, x);
    }
  }

  /** The file-based `check_kings` rejects a board with one king of each
      colour exactly when the two kings touch. */
  lemma CheckKingsByFileMeaning(ranks: seq<string>)
    requires |ranks| == 8 && forall i :: 0 <= i < 8 ==> RankOk(ranks[i])
    requires TotalOccurrences(ranks, 'K') == 1 && TotalOccurrences(ranks, 'k') == 1
    ensures KingPlace(ranks, 8, 'K').Some? && KingPlace(ranks, 8, 'k').Some? && IsBoard(DecodeBoard(ranks))
    ensures exists s :: OnBoard(s) && At(DecodeBoard(ranks), s) == 'K'
    ensures exists s :: OnBoard(s) && At(DecodeBoard(ranks), s) == 'k'
    ensures forall s1, s2 ::
      OnBoard(s1) && OnBoard(s2) && At(DecodeBoard(ranks), s1) == 'K' && At(DecodeBoard(ranks), s2) == 'k' ==>
        (CheckKingsByFile(ranks) == InvalidFen <==> Touching(s1, s2))
  {
    KingSquareByFile(ranks, 'K');
    KingSquareByFile(ranks, 'k');
    var y1 := KingPlace(ranks, 8, 'K').value.1;
    var y2 := KingPlace(ranks, 8, 'k').value.1;
    var w := Square(CountBefore(ranks[y1], 'K'), y1);
    var bl := Square(CountBefore(ranks[y2], 'k'), y2);
    assert OnBoard(w) && At(DecodeBoard(ranks), w) == 'K';
    assert OnBoard(bl) && At(DecodeBoard(ranks), bl) == 'k';
  }
}
