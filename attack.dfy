/** The attack detector of board.py: whether a square is attacked by the side
    NOT to move, as four independent scans (rook/queen rays, bishop/queen rays,
    knight jumps, pawn captures). */
module Attack {
  import opened Chess

  /** The square `k` steps from `s` in direction (dx, dy). */
  function Step(s: Square, dx: int, dy: int, k: int): Square {
    Square(s.x + dx * k, s.y + dy * k)
  }

  /** One ray scan from step `k` outwards (steps run up to 7, as in the source):
      squares off the board are skipped, the first non-empty square decides,
      true exactly when it holds `p1` or `p2`. */
  function RayHits(b: Board, s: Square, dx: int, dy: int, k: int, p1: char, p2: char): bool
    requires IsBoard(b) && 1 <= k
    decreases 8 - k
  {
    if k > 7 then false
    else
      var t := Step(s, dx, dy, k);
      if !OnBoard(t) then RayHits(b, s, dx, dy, k + 1, p1, p2)
      else if At(b, t) == p1 || At(b, t) == p2 then true
      else if At(b, t) != ' ' then false
      else RayHits(b, s, dx, dy, k + 1, p1, p2)
  }

  /** Step `j` of the ray holds an attacker. */
  predicate Holds(b: Board, s: Square, dx: int, dy: int, j: int, p1: char, p2: char)
    requires IsBoard(b)
  {
    OnBoard(Step(s, dx, dy, j)) && (At(b, Step(s, dx, dy, j)) == p1 || At(b, Step(s, dx, dy, j)) == p2)
  }

  /** Step `j` of the ray does not block: it is off the board or empty. */
  predicate Clear(b: Board, s: Square, dx: int, dy: int, j: int)
    requires IsBoard(b)
  {
    !OnBoard(Step(s, dx, dy, j)) || At(b, Step(s, dx, dy, j)) == ' '
  }

  /** A ray hits exactly when some step holds an attacker and every step
      before it is clear: the first non-empty square decides and blocks
      everything beyond it. */
  lemma {:induction false} RayHitsIff(b: Board, s: Square, dx: int, dy: int, k: int, p1: char, p2: char)
    requires IsBoard(b) && 1 <= k && p1 != ' ' && p2 != ' '
    ensures RayHits(b, s, dx, dy, k, p1, p2) <==>
      exists j :: k <= j <= 7 && Holds(b, s, dx, dy, j, p1, p2) &&
        forall i :: k <= i < j ==> Clear(b, s, dx, dy, i)
    decreases 8 - k
  {
    if k <= 7 {
      RayHitsIff(b, s, dx, dy, k + 1, p1, p2);
      if Holds(b, s, dx, dy, k, p1, p2) {
        assert RayHits(b, s, dx, dy, k, p1, p2);
      } else if !Clear(b, s, dx, dy, k) {
        assert !RayHits(b, s, dx, dy, k, p1, p2);
      } else {
        if RayHits(b, s, dx, dy, k, p1, p2) {
          var j :| k + 1 <= j <= 7 && Holds(b, s, dx, dy, j, p1, p2) &&
            forall i :: k + 1 <= i < j ==> Clear(b, s, dx, dy, i);
          assert forall i :: k <= i < j ==> Clear(b, s, dx, dy, i);
        }
        if exists j :: k <= j <= 7 && Holds(b, s, dx, dy, j, p1, p2) &&
            forall i :: k <= i < j ==> Clear(b, s, dx, dy, i) {
          var j :| k <= j <= 7 && Holds(b, s, dx, dy, j, p1, p2) &&
            forall i :: k <= i < j ==> Clear(b, s, dx, dy, i);
          assert j != k;
          assert forall i :: k + 1 <= i < j ==> Clear(b, s, dx, dy, i);
        }
      }
    }
  }

  /** The enemy rook and queen letters: black's when white is to move. */
  function EnemyRook(white: bool): char { if white then 'r' else 'R' }
  function EnemyQueen(white: bool): char { if white then 'q' else 'Q' }
  function EnemyBishop(white: bool): char { if white then 'b' else 'B' }
  function EnemyKnight(white: bool): char { if white then 'n' else 'N' }
  function EnemyPawn(white: bool): char { if white then 'p' else 'P' }

  /** `horizontal_or_vertical_attack`, specified ray by ray. */
  function OrthogonalAttack(b: Board, white: bool, s: Square): bool
    requires IsBoard(b)
  {
    var r, q := EnemyRook(white), EnemyQueen(white);
    RayHits(b, s, -1, 0, 1, r, q) || RayHits(b, s, 1, 0, 1, r, q) ||
    RayHits(b, s, 0, -1, 1, r, q) || RayHits(b, s, 0, 1, 1, r, q)
  }

  /** `diagonal_attack`: the four diagonals, file step outer, row step inner. */
  function DiagonalAttack(b: Board, white: bool, s: Square): bool
    requires IsBoard(b)
  {
    var q, bi := EnemyQueen(white), EnemyBishop(white);
    RayHits(b, s, -1, -1, 1, q, bi) || RayHits(b, s, -1, 1, 1, q, bi) ||
    RayHits(b, s, 1, -1, 1, q, bi) || RayHits(b, s, 1, 1, 1, q, bi)
  }

  /** The knight offsets in the order `knight_attack` visits them
      (i and j drawn from [-1, 1, -2, 2] with |i| != |j|). */
  const KnightOffsets: seq<(int, int)> :=
    [(-1, -2), (-1, 2), (1, -2), (1, 2), (-2, -1), (-2, 1), (2, -1), (2, 1)]

  /** `knight_attack`. */
  function KnightAttack(b: Board, white: bool, s: Square): bool
    requires IsBoard(b)
  {
    exists i | 0 <= i < |KnightOffsets| ::
      var t := Square(s.x + KnightOffsets[i].0, s.y + KnightOffsets[i].1);
      OnBoard(t) && At(b, t) == EnemyKnight(white)
  }

  /** `pawn_attack`: an enemy pawn one row towards the enemy side, one file
      either way (row y-1 when white is to move, y+1 otherwise). */
  function PawnAttack(b: Board, white: bool, s: Square): bool
    requires IsBoard(b)
  {
    var i := if white then -1 else 1;
    (InBounds(s.x - 1, s.y + i) && b[s.y + i][s.x - 1] == EnemyPawn(white)) ||
    (InBounds(s.x + 1, s.y + i) && b[s.y + i][s.x + 1] == EnemyPawn(white))
  }

  function Distance(a: int, b: int): nat { if a < b then b - a else a - b }

  /** A knight's jump from `s` to `t`: one file and two rows, or two files
      and one row. */
  predicate KnightJump(s: Square, t: Square) {
    (Distance(s.x, t.x) == 1 && Distance(s.y, t.y) == 2) || (Distance(s.x, t.x) == 2 && Distance(s.y, t.y) == 1)
  }

  /** The position in `KnightOffsets` of the jump from `s` to `t`. */
  lemma KnightOffsetOf(s: Square, t: Square) returns (i: int)
    requires KnightJump(s, t)
    ensures 0 <= i < |KnightOffsets| && KnightOffsets[i] == (t.x - s.x, t.y - s.y)
  {
    var dx, dy := t.x - s.x, t.y - s.y;
    i := if dx == -1 && dy == -2 then 0 else if dx == -1 && dy == 2 then 1
      else if dx == 1 && dy == -2 then 2 else if dx == 1 && dy == 2 then 3
      else if dx == -2 && dy == -1 then 4 else if dx == -2 && dy == 1 then 5
      else if dx == 2 && dy == -1 then 6 else 7;
  }

  /** The knight scan hits exactly when an enemy knight stands a knight's
      jump away. */
  lemma KnightAttackMeaning(b: Board, white: bool, s: Square)
    requires IsBoard(b)
    ensures KnightAttack(b, white, s) <==>
      exists t :: OnBoard(t) && KnightJump(s, t) && At(b, t) == EnemyKnight(white)
  {
    if KnightAttack(b, white, s) {
      var i :| 0 <= i < |KnightOffsets| &&
        var t := Square(s.x + KnightOffsets[i].0, s.y + KnightOffsets[i].1);
        OnBoard(t) && At(b, t) == EnemyKnight(white);
      var t := Square(s.x + KnightOffsets[i].0, s.y + KnightOffsets[i].1);
      assert KnightJump(s, t);
    }
    if exists t :: OnBoard(t) && KnightJump(s, t) && At(b, t) == EnemyKnight(white) {
      var t :| OnBoard(t) && KnightJump(s, t) && At(b, t) == EnemyKnight(white);
      var i := KnightOffsetOf(s, t);
      assert t == Square(s.x + KnightOffsets[i].0, s.y + KnightOffsets[i].1);
    }
  }

  /** The pawn scan hits exactly when an enemy pawn stands on a square
      from which it captures onto `s`: one file either way, one row
      towards the enemy's side (black pawns move to higher rows). */
  lemma PawnAttackMeaning(b: Board, white: bool, s: Square)
    requires IsBoard(b)
    ensures PawnAttack(b, white, s) <==>
      exists t :: OnBoard(t) && Distance(t.x, s.x) == 1 && t.y == s.y + (if white then -1 else 1) &&
        At(b, t) == EnemyPawn(white)
  {
    var i := if white then -1 else 1;
    if PawnAttack(b, white, s) {
      if InBounds(s.x - 1, s.y + i) && b[s.y + i][s.x - 1] == EnemyPawn(white) {
        assert At(b, Square(s.x - 1, s.y + i)) == EnemyPawn(white);
      } else {
        assert At(b, Square(s.x + 1, s.y + i)) == EnemyPawn(white);
      }
    }
  }

  /** The offsets `knight_attack` draws each of i and j from. */
  const KnightSteps: seq<int> := [-1, 1, -2, 2]

  /** One (i, j) of `knight_attack`'s loops finds an enemy knight: the
      offsets differ in size and the square they reach holds the knight. */
  predicate KnightHit(b: Board, white: bool, s: Square, i: int, j: int)
    requires IsBoard(b)
  {
    i * i != j * j && InBounds(s.x + i, s.y + j) && b[s.y + j][s.x + i] == EnemyKnight(white)
  }

  /** A pair of the loops that finds a knight is one of the knight
      offsets. */
  lemma KnightHitAttacks(b: Board, white: bool, s: Square, p: int, q: int)
    requires IsBoard(b) && 0 <= p < 4 && 0 <= q < 4 && KnightHit(b, white, s, KnightSteps[p], KnightSteps[q])
    ensures KnightAttack(b, white, s)
  {
    var t := Square(s.x + KnightSteps[p], s.y + KnightSteps[q]);
    assert KnightJump(s, t);
    var i := KnightOffsetOf(s, t);
    assert t == Square(s.x + KnightOffsets[i].0, s.y + KnightOffsets[i].1);
  }

  /** The pair of the loops that reaches the square of knight offset `i`. */
  lemma KnightOffsetHit(b: Board, white: bool, s: Square, i: int) returns (p: int, q: int)
    requires IsBoard(b) && 0 <= i < |KnightOffsets|
    requires var t := Square(s.x + KnightOffsets[i].0, s.y + KnightOffsets[i].1);
      OnBoard(t) && At(b, t) == EnemyKnight(white)
    ensures 0 <= p < 4 && 0 <= q < 4 && KnightHit(b, white, s, KnightSteps[p], KnightSteps[q])
  {
    var (i0, j0) := KnightOffsets[i];
    p := if i0 == -1 then 0 else if i0 == 1 then 1 else if i0 == -2 then 2 else 3;
    q := if j0 == -1 then 0 else if j0 == 1 then 1 else if j0 == -2 then 2 else 3;
  }

  /** The sixteen (i, j) pairs of the loops find a knight exactly when the
      knight scan does: the pairs whose sizes differ are the eight knight
      offsets. */
  lemma KnightHitsCover(b: Board, white: bool, s: Square)
    requires IsBoard(b)
    ensures KnightAttack(b, white, s) <==>
      exists p, q :: 0 <= p < 4 && 0 <= q < 4 && KnightHit(b, white, s, KnightSteps[p], KnightSteps[q])
  {
    if KnightAttack(b, white, s) {
      var i :| 0 <= i < |KnightOffsets| &&
        var t := Square(s.x + KnightOffsets[i].0, s.y + KnightOffsets[i].1);
        OnBoard(t) && At(b, t) == EnemyKnight(white);
      var p, q := KnightOffsetHit(b, white, s, i);
    }
    if exists p, q :: 0 <= p < 4 && 0 <= q < 4 && KnightHit(b, white, s, KnightSteps[p], KnightSteps[q]) {
      var p, q :| 0 <= p < 4 && 0 <= q < 4 && KnightHit(b, white, s, KnightSteps[p], KnightSteps[q]);
      KnightHitAttacks(b, white, s, p, q);
    }
  }

  /** `is_attacked`: the square is attacked by the side not to move. */
  function Attacked(b: Board, white: bool, s: Square): bool
    requires IsBoard(b)
  {
    OrthogonalAttack(b, white, s) || DiagonalAttack(b, white, s) ||
    KnightAttack(b, white, s) || PawnAttack(b, white, s)
  }
}
