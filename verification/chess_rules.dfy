/**
 * The rules half of the chess game (src/app/chess-game/chess-game.ts): piece codes,
 * the board, and pseudo-legal move generation per piece, written as functions over
 * board values. The game object that owns and updates a board lives in ChessGame.
 *
 * Move generation follows the code as written, including its one exception: the
 * pawn's diagonal probe reads `board[y + dir]?.[nx]`, which is `undefined` off the
 * board, and `isWhite`/`isBlack` then call a string method on `undefined`. That
 * TypeError is the `TypeError` result below.
 */
module ChessRules {
  import opened Wrappers

  datatype Color = White | Black
  datatype Kind = Pawn | Knight | Bishop | Rook | Queen | King

  /** The content of a square. The source stores a one-letter code, '' when empty (see Code). */
  datatype Piece = Empty | Occupied(color: Color, kind: Kind)

  /** A square, `x` the file (column) and `y` the rank (row); (0, 0) is black's rook corner. */
  datatype Pos = Pos(x: int, y: int)

  /** One generated move; `capture` is the enemy piece on `to`, or None when `to` was empty. */
  datatype Move = Move(from: Pos, to: Pos, piece: Piece, capture: Option<Piece>)

  /** A computation that either yields a value or throws the source's TypeError. */
  datatype Result<T> = Ok(value: T) | TypeError

  /** The board: 8 rows of 8 squares, indexed `g[y][x]`. */
  type Grid = seq<seq<Piece>>

  predicate IsBoard(g: Grid) {
    |g| == 8 && forall r :: 0 <= r < 8 ==> |g[r]| == 8
  }

  predicate OnBoard(x: int, y: int) {
    0 <= x < 8 && 0 <= y < 8
  }

  function Opponent(c: Color): (r: Color)
    ensures r != c
  {
    if c == White then Black else White
  }

  // ---------------------------------------------------------------------------
  // Piece codes and colour tests (isWhite / isBlack)
  // ---------------------------------------------------------------------------

  function UpperChar(ch: char): char {
    if 'a' <= ch <= 'z' then (ch as int - 32) as char else ch
  }

  function LowerChar(ch: char): char {
    if 'A' <= ch <= 'Z' then (ch as int + 32) as char else ch
  }

  /** `String.prototype.toUpperCase`, on the ASCII letters the codes use. */
  function ToUpperCase(s: string): (r: string)
    ensures |r| == |s|
  {
    seq(|s|, i requires 0 <= i < |s| => UpperChar(s[i]))
  }

  /** `String.prototype.toLowerCase`, on the ASCII letters the codes use. */
  function ToLowerCase(s: string): (r: string)
    ensures |r| == |s|
  {
    seq(|s|, i requires 0 <= i < |s| => LowerChar(s[i]))
  }

  function KindLetter(k: Kind): char {
    match k
    case Pawn => 'p'
    case Knight => 'n'
    case Bishop => 'b'
    case Rook => 'r'
    case Queen => 'q'
    case King => 'k'
  }

  /** The code the source keeps on the board: lower case for black, upper case for white. */
  function Code(p: Piece): (r: string)
    ensures |r| <= 1
    ensures r == "" <==> p == Empty
  {
    match p
    case Empty => ""
    case Occupied(c, k) => if c == White then [UpperChar(KindLetter(k))] else [KindLetter(k)]
  }

  /** `isWhite`: a non-empty code that equals its own upper-case form. */
  function IsWhite(p: Piece): (r: bool)
    ensures r <==> Code(p) != "" && Code(p) == ToUpperCase(Code(p))
  {
    if p == Empty then false
    else
      assert ToUpperCase(Code(p)) == [UpperChar(Code(p)[0])];
      p.color == White
  }

  /** `isBlack`: a non-empty code that equals its own lower-case form. */
  function IsBlack(p: Piece): (r: bool)
    ensures r <==> Code(p) != "" && Code(p) == ToLowerCase(Code(p))
  {
    if p == Empty then false
    else
      assert ToLowerCase(Code(p)) == [LowerChar(Code(p)[0])];
      p.color == Black
  }

  /** The colour test the source applies for side `c` (`isWhite` for white, `isBlack` for black). */
  function Owns(c: Color, p: Piece): bool {
    if c == White then IsWhite(p) else IsBlack(p)
  }

  /** `enemyCheck` of a piece of colour `c`: the test for the other side. */
  function IsEnemy(c: Color, t: Piece): bool {
    Owns(Opponent(c), t)
  }

  /** `color` in `getMoves`: white when the code is upper case, black otherwise. */
  function ColorOf(p: Piece): Color {
    if IsWhite(p) then White else Black
  }

  function Forward(c: Color): int {
    if c == White then -1 else 1
  }

  function StartRow(c: Color): int {
    if c == White then 6 else 1
  }

  // ---------------------------------------------------------------------------
  // Move generation (getMoves, addMove, rayMoves)
  // ---------------------------------------------------------------------------

  /** `board[y]?.[x]`: the square's content, or None (`undefined`) off the board. */
  function Probe(g: Grid, x: int, y: int): (r: Option<Piece>)
    requires IsBoard(g)
    ensures r.Some? <==> OnBoard(x, y)
    ensures r.Some? ==> r.value == g[y][x]
  {
    if OnBoard(x, y) then Some(g[y][x]) else None
  }

  /**
   * The `addMove` closure of `getMoves`: a move of `piece` from (x, y) to (nx, ny),
   * recorded when the target is on the board and empty or an enemy.
   */
  function AddMove(g: Grid, x: int, y: int, piece: Piece, nx: int, ny: int): seq<Move>
    requires IsBoard(g)
  {
    if !OnBoard(nx, ny) then []
    else
      var t := g[ny][nx];
      if t == Empty || IsEnemy(ColorOf(piece), t) then
        [Move(Pos(x, y), Pos(nx, ny), piece, if t == Empty then None else Some(t))]
      else []
  }

  /** A step of a sliding piece: one of the eight neighbouring offsets. */
  type Direction = d: (int, int) | -1 <= d.0 <= 1 && -1 <= d.1 <= 1 && d != (0, 0) witness (1, 0)

  /** Squares left on the board along one axis of a ray; the termination measure of Ray. */
  function Remaining(n: int, d: int): nat {
    if d > 0 then (if n < 8 then 8 - n else 0)
    else if d < 0 then (if n >= 0 then n + 1 else 0)
    else 0
  }

  /**
   * The inner `while` of `rayMoves` for one direction `d`, from square (nx, ny) on:
   * empty squares are added and passed, the first occupied square is added if it
   * holds an enemy, and the ray stops there or at the edge.
   */
  function Ray(g: Grid, x: int, y: int, piece: Piece, d: Direction, nx: int, ny: int): seq<Move>
    requires IsBoard(g)
    decreases Remaining(nx, d.0) + Remaining(ny, d.1)
  {
    if !OnBoard(nx, ny) then []
    else if g[ny][nx] == Empty then AddMove(g, x, y, piece, nx, ny) + Ray(g, x, y, piece, d, nx + d.0, ny + d.1)
    else if IsEnemy(ColorOf(piece), g[ny][nx]) then AddMove(g, x, y, piece, nx, ny)
    else []
  }

  /** `rayMoves(x, y, dirs, ...)`: the rays of `dirs`, in the order of `dirs`. */
  function Rays(g: Grid, x: int, y: int, piece: Piece, dirs: seq<Direction>): seq<Move>
    requires IsBoard(g)
    decreases |dirs|
  {
    if dirs == [] then []
    else
      var d := dirs[|dirs| - 1];
      Rays(g, x, y, piece, dirs[..|dirs| - 1]) + Ray(g, x, y, piece, d, x + d.0, y + d.1)
  }

  /**
   * The knight and king `forEach` over fixed offsets: the probe must be defined and
   * empty or an enemy, and then `addMove` runs.
   */
  function Steps(g: Grid, x: int, y: int, piece: Piece, offsets: seq<(int, int)>): seq<Move>
    requires IsBoard(g)
    decreases |offsets|
  {
    if offsets == [] then []
    else
      var o := offsets[|offsets| - 1];
      var t := Probe(g, x + o.0, y + o.1);
      if t.Some? && (t.value == Empty || IsEnemy(ColorOf(piece), t.value))
      then Steps(g, x, y, piece, offsets[..|offsets| - 1]) + AddMove(g, x, y, piece, x + o.0, y + o.1)
      else Steps(g, x, y, piece, offsets[..|offsets| - 1])
  }

  /**
   * The pawn's diagonal `forEach` over the files `files`, on row `ny`: the probe is
   * handed to `enemyCheck` unchecked, so an undefined probe throws.
   */
  function Diagonals(g: Grid, x: int, y: int, piece: Piece, ny: int, files: seq<int>): Result<seq<Move>>
    requires IsBoard(g)
    decreases |files|
  {
    if files == [] then Ok([])
    else
      match Diagonals(g, x, y, piece, ny, files[..|files| - 1])
      case TypeError => TypeError
      case Ok(ms) =>
        var nx := files[|files| - 1];
        var t := Probe(g, nx, ny);
        if t.None? then TypeError
        else Ok(ms + if IsEnemy(ColorOf(piece), t.value) then AddMove(g, x, y, piece, nx, ny) else [])
  }

  /** The pawn's straight steps: one square onto an empty square, two from the start row. */
  function PawnPushes(g: Grid, x: int, y: int, piece: Piece): seq<Move>
    requires IsBoard(g)
  {
    var c := ColorOf(piece);
    var dir := Forward(c);
    if Probe(g, x, y + dir) == Some(Empty) then
      AddMove(g, x, y, piece, x, y + dir) +
        (if y == StartRow(c) && Probe(g, x, y + 2 * dir) == Some(Empty)
         then AddMove(g, x, y, piece, x, y + 2 * dir) else [])
    else []
  }

  /** The `case 'p'` branch of `getMoves`. */
  function PawnMoves(g: Grid, x: int, y: int, piece: Piece): Result<seq<Move>>
    requires IsBoard(g)
  {
    var dir := Forward(ColorOf(piece));
    match Diagonals(g, x, y, piece, y + dir, [x - 1, x + 1])
    case TypeError => TypeError
    case Ok(diagonal) => Ok(PawnPushes(g, x, y, piece) + diagonal)
  }

  const RookDirs: seq<Direction> := [(1, 0), (-1, 0), (0, 1), (0, -1)]
  const BishopDirs: seq<Direction> := [(1, 1), (-1, 1), (1, -1), (-1, -1)]
  const QueenDirs: seq<Direction> := [(1, 0), (-1, 0), (0, 1), (0, -1), (1, 1), (-1, 1), (1, -1), (-1, -1)]
  const KnightOffsets: seq<(int, int)> := [(1, 2), (2, 1), (-1, 2), (-2, 1), (1, -2), (2, -1), (-1, -2), (-2, -1)]
  const KingOffsets: seq<(int, int)> := [(1, 0), (-1, 0), (0, 1), (0, -1), (1, 1), (-1, 1), (1, -1), (-1, -1)]

  /** `getMoves(x, y)`: the pseudo-legal moves of the piece on (x, y), or the pawn probe's TypeError. */
  function Moves(g: Grid, x: int, y: int): Result<seq<Move>>
    requires IsBoard(g) && OnBoard(x, y)
  {
    var piece := g[y][x];
    match piece
    case Empty => Ok([])
    case Occupied(_, kind) =>
      match kind
      case Pawn => PawnMoves(g, x, y, piece)
      case Rook => Ok(Rays(g, x, y, piece, RookDirs))
      case Bishop => Ok(Rays(g, x, y, piece, BishopDirs))
      case Queen => Ok(Rays(g, x, y, piece, QueenDirs))
      case Knight => Ok(Steps(g, x, y, piece, KnightOffsets))
      case King => Ok(Steps(g, x, y, piece, KingOffsets))
  }

  /**
   * `getAllMoves(c)` when its nested scan (rows y, then files x) reaches square (x, y):
   * the moves of every piece of colour `c` on the rows above y and left of x on row y,
   * concatenated in scan order, or the first TypeError met.
   */
  function ScanBefore(g: Grid, c: Color, y: int, x: int): Result<seq<Move>>
    requires IsBoard(g) && 0 <= y <= 8 && 0 <= x <= 8 && (y < 8 || x == 0)
    decreases y, x
  {
    if x == 0 then
      if y == 0 then Ok([]) else ScanBefore(g, c, y - 1, 8)
    else
      match ScanBefore(g, c, y, x - 1)
      case TypeError => TypeError
      case Ok(ms) =>
        if Owns(c, g[y][x - 1]) then
          match Moves(g, x - 1, y)
          case TypeError => TypeError
          case Ok(more) => Ok(ms + more)
        else Ok(ms)
  }

  /** `getAllMoves(c)`. */
  function AllMoves(g: Grid, c: Color): Result<seq<Move>>
    requires IsBoard(g)
  {
    ScanBefore(g, c, 8, 0)
  }

  // ---------------------------------------------------------------------------
  // The starting position (the array literal of resetBoard)
  // ---------------------------------------------------------------------------

  const BackRank: seq<Kind> := [Rook, Knight, Bishop, Queen, King, Bishop, Knight, Rook]

  function BackRow(c: Color): seq<Piece> {
    seq(8, i requires 0 <= i < 8 => Occupied(c, BackRank[i]))
  }

  function PawnRow(c: Color): seq<Piece> {
    seq(8, _ => Occupied(c, Pawn))
  }

  function EmptyRow(): seq<Piece> {
    seq(8, _ => Empty)
  }

  /** 'r','n','b','q','k','b','n','r' / eight 'p' / four empty rows / eight 'P' / 'R','N','B','Q','K','B','N','R'. */
  function StartGrid(): (g: Grid)
    ensures IsBoard(g)
  {
    [BackRow(Black), PawnRow(Black), EmptyRow(), EmptyRow(), EmptyRow(), EmptyRow(), PawnRow(White), BackRow(White)]
  }
}
