/**
 * The chess component itself: the board is a two-dimensional array written in place,
 * and the handlers update the fields. Every method is proved to follow the value-level
 * model of ChessRules (move generation) and ChessPlay (the handlers).
 */
module ChessComponent {
  import opened Wrappers
  import opened ChessRules
  import opened ChessRuleFacts
  import opened ChessPlay

  /** Once the diagonal probes have thrown, the whole `forEach` has thrown. */
  lemma {:induction false} DiagonalsSticky(g: Grid, x: int, y: int, piece: Piece, ny: int, files: seq<int>, i: int)
    requires IsBoard(g) && 0 <= i <= |files| && Diagonals(g, x, y, piece, ny, files[..i]).TypeError?
    ensures Diagonals(g, x, y, piece, ny, files).TypeError?
    decreases |files| - i
  {
    if i < |files| {
      assert files[..i + 1][..i] == files[..i];
      DiagonalsSticky(g, x, y, piece, ny, files, i + 1);
    } else {
      assert files[..i] == files;
    }
  }

  /** The ray loop over an empty square: the quiet move is added and the walk goes on, closer to the edge. */
  lemma RayStep(g: Grid, x: int, y: int, piece: Piece, d: Direction, nx: int, ny: int, ray: seq<Move>, whole: seq<Move>)
    requires IsBoard(g) && OnBoard(nx, ny) && g[ny][nx] == Empty
    requires whole == ray + Ray(g, x, y, piece, d, nx, ny)
    ensures whole == (ray + [Move(Pos(x, y), Pos(nx, ny), piece, None)]) + Ray(g, x, y, piece, d, nx + d.0, ny + d.1)
    ensures Remaining(nx + d.0, d.0) + Remaining(ny + d.1, d.1) < Remaining(nx, d.0) + Remaining(ny, d.1)
  {
    var m := [Move(Pos(x, y), Pos(nx, ny), piece, None)];
    var next := Ray(g, x, y, piece, d, nx + d.0, ny + d.1);
    assert Ray(g, x, y, piece, d, nx, ny) == m + next;
    AppendAssoc(ray, m, next);
  }

  /** The ray loop at an occupied enemy square: the capture is the last move. */
  lemma RayCapture(g: Grid, x: int, y: int, piece: Piece, d: Direction, nx: int, ny: int, ray: seq<Move>, whole: seq<Move>)
    requires IsBoard(g) && OnBoard(nx, ny) && g[ny][nx] != Empty && IsEnemy(ColorOf(piece), g[ny][nx])
    requires whole == ray + Ray(g, x, y, piece, d, nx, ny)
    ensures whole == ray + [Move(Pos(x, y), Pos(nx, ny), piece, Some(g[ny][nx]))]
  {
  }

  /** The ray loop at a square of its own side, or off the board: nothing more is added. */
  lemma RayBlocked(g: Grid, x: int, y: int, piece: Piece, d: Direction, nx: int, ny: int, ray: seq<Move>, whole: seq<Move>)
    requires IsBoard(g) && (!OnBoard(nx, ny) || (g[ny][nx] != Empty && !IsEnemy(ColorOf(piece), g[ny][nx])))
    requires whole == ray + Ray(g, x, y, piece, d, nx, ny)
    ensures whole == ray
  {
    assert ray + [] == ray;
  }

  /** The knight/king `forEach` one offset further: the move to that square is appended when it is on the board and empty or an enemy. */
  lemma StepsNext(g: Grid, x: int, y: int, piece: Piece, offsets: seq<(int, int)>, i: int)
    requires IsBoard(g) && 0 <= i < |offsets|
    ensures var nx, ny := x + offsets[i].0, y + offsets[i].1;
      Steps(g, x, y, piece, offsets[..i + 1]) ==
        Steps(g, x, y, piece, offsets[..i]) +
          if OnBoard(nx, ny) && (g[ny][nx] == Empty || IsEnemy(ColorOf(piece), g[ny][nx]))
          then [Move(Pos(x, y), Pos(nx, ny), piece, if g[ny][nx] == Empty then None else Some(g[ny][nx]))]
          else []
  {
    assert offsets[..i + 1][..i] == offsets[..i];
  }

  /** `addMove` onto an empty square of the board records one quiet move. */
  lemma AddMoveEmpty(g: Grid, x: int, y: int, piece: Piece, nx: int, ny: int)
    requires IsBoard(g) && OnBoard(nx, ny) && g[ny][nx] == Empty
    ensures AddMove(g, x, y, piece, nx, ny) == [Move(Pos(x, y), Pos(nx, ny), piece, None)]
  {
  }

  /** The pawn's diagonal `forEach` one file further. */
  lemma DiagonalsNext(g: Grid, x: int, y: int, piece: Piece, ny: int, files: seq<int>, i: int, ms: seq<Move>)
    requires IsBoard(g) && 0 <= i < |files| && Diagonals(g, x, y, piece, ny, files[..i]) == Ok(ms)
    ensures !OnBoard(files[i], ny) ==> Diagonals(g, x, y, piece, ny, files[..i + 1]) == TypeError
    ensures OnBoard(files[i], ny) ==>
      Diagonals(g, x, y, piece, ny, files[..i + 1]) ==
        Ok(ms + if IsEnemy(ColorOf(piece), g[ny][files[i]]) then AddMove(g, x, y, piece, files[i], ny) else [])
  {
    assert files[..i + 1][..i] == files[..i];
  }

  class ChessGame {
    /** `board[y][x]`, row y first, as in the source. */
    var board: array2<Piece>
    var selected: Option<Pos>
    var currentPlayer: Color
    var vsComputer: bool
    var computerColor: Color

    /** The board's contents as a grid. */
    ghost var cells: Grid

    /** The array is 8x8 and holds `cells`; the selected square, if any, is on the board. */
    ghost predicate Valid()
      reads this, board
    {
      && board.Length0 == 8 && board.Length1 == 8
      && IsBoard(cells)
      && (forall y, x :: 0 <= y < 8 && 0 <= x < 8 ==> board[y, x] == cells[y][x])
      && (selected.Some? ==> OnBoard(selected.value.x, selected.value.y))
    }

    /** The component's state as a ChessPlay game. */
    ghost function Snapshot(): (gm: Game)
      reads this, board
      requires Valid()
      ensures ValidGame(gm)
    {
      Game(cells, selected, currentPlayer, vsComputer, computerColor)
    }

    /** The field initialisers (an empty board, white to move, the computer off and set to black), then `ngOnInit`. */
    constructor ()
      ensures Valid() && Snapshot() == NewGame()
    {
      board := new Piece[0, 0];
      cells := [];
      selected := None;
      currentPlayer := White;
      vsComputer := false;
      computerColor := Black;
      new;
      ResetBoard();
    }

    /** `resetBoard`: a fresh board in the starting position, white to move, no selection. */
    method ResetBoard()
      modifies this
      ensures Valid() && fresh(board)
      ensures cells == StartGrid() && currentPlayer == White && selected == None
      ensures vsComputer == old(vsComputer) && computerColor == old(computerColor)
    {
      var start := StartGrid();
      board := new Piece[8, 8]((y, x) => if 0 <= y < 8 && 0 <= x < 8 then start[y][x] else Empty);
      cells := start;
      currentPlayer := White;
      selected := None;
    }

    /** `makeMove(from, to)`: the two square assignments in place, then the turn flips. */
    method MakeMove(from: Pos, to: Pos)
      requires Valid() && OnBoard(from.x, from.y) && OnBoard(to.x, to.y)
      modifies this, board
      ensures Valid() && board == old(board)
      ensures Snapshot() == ApplyMove(old(Snapshot()), from, to)
    {
      var piece := board[from.y, from.x];
      board[to.y, to.x] := piece;
      board[from.y, from.x] := Empty;
      currentPlayer := if currentPlayer == White then Black else White;
      cells := Relocate(cells, from, to);
    }

    /** The `addMove` closure of `getMoves`, reading the board. */
    method AddMoveAt(x: int, y: int, piece: Piece, nx: int, ny: int) returns (ms: seq<Move>)
      requires Valid()
      ensures ms == AddMove(cells, x, y, piece, nx, ny)
    {
      if nx < 0 || nx > 7 || ny < 0 || ny > 7 {
        return [];
      }
      var target := board[ny, nx];
      if target == Empty || IsEnemy(ColorOf(piece), target) {
        ms := [Move(Pos(x, y), Pos(nx, ny), piece, if target == Empty then None else Some(target))];
      } else {
        ms := [];
      }
    }

    /** The `while` of `rayMoves` for one direction: walk from the piece until the edge or the first occupied square. */
    method RayAlong(x: int, y: int, piece: Piece, d: Direction) returns (ray: seq<Move>)
      requires Valid()
      ensures ray == Ray(cells, x, y, piece, d, x + d.0, y + d.1)
    {
      ghost var g := cells;
      ghost var whole := Ray(g, x, y, piece, d, x + d.0, y + d.1);
      var nx, ny := x + d.0, y + d.1;
      ray := [];
      while nx >= 0 && nx < 8 && ny >= 0 && ny < 8
        invariant whole == ray + Ray(g, x, y, piece, d, nx, ny)
        decreases Remaining(nx, d.0) + Remaining(ny, d.1)
      {
        var target := board[ny, nx];
        if target != Empty {
          if IsEnemy(ColorOf(piece), target) {
            RayCapture(g, x, y, piece, d, nx, ny, ray, whole);
            ray := ray + [Move(Pos(x, y), Pos(nx, ny), piece, Some(target))];
          } else {
            RayBlocked(g, x, y, piece, d, nx, ny, ray, whole);
          }
          return;
        }
        RayStep(g, x, y, piece, d, nx, ny, ray, whole);
        ray := ray + [Move(Pos(x, y), Pos(nx, ny), piece, None)];
        nx, ny := nx + d.0, ny + d.1;
      }
      RayBlocked(g, x, y, piece, d, nx, ny, ray, whole);
    }

    /** `rayMoves(x, y, dirs, ...)`: the rays of the directions, one after the other. */
    method RayMoves(x: int, y: int, piece: Piece, dirs: seq<Direction>) returns (moves: seq<Move>)
      requires Valid()
      ensures moves == Rays(cells, x, y, piece, dirs)
    {
      ghost var g := cells;
      moves := [];
      for i := 0 to |dirs|
        invariant moves == Rays(g, x, y, piece, dirs[..i])
      {
        var ray := RayAlong(x, y, piece, dirs[i]);
        moves := moves + ray;
        assert dirs[..i + 1][..i] == dirs[..i];
      }
      assert dirs[..|dirs|] == dirs;
    }

    /** The knight and king `forEach`: probe each offset and add the move when the square is empty or an enemy. */
    method StepMoves(x: int, y: int, piece: Piece, offsets: seq<(int, int)>) returns (moves: seq<Move>)
      requires Valid()
      ensures moves == Steps(cells, x, y, piece, offsets)
    {
      ghost var g := cells;
      moves := [];
      for i := 0 to |offsets|
        invariant moves == Steps(g, x, y, piece, offsets[..i])
      {
        var (dx, dy) := offsets[i];
        var nx, ny := x + dx, y + dy;
        StepsNext(g, x, y, piece, offsets, i);
        if 0 <= nx < 8 && 0 <= ny < 8 {
          var target := board[ny, nx];
          if target == Empty || IsEnemy(ColorOf(piece), target) {
            moves := moves + [Move(Pos(x, y), Pos(nx, ny), piece, if target == Empty then None else Some(target))];
          }
        }
      }
      assert offsets[..|offsets|] == offsets;
    }

    /** The pawn's straight steps in the `case 'p'` branch. */
    method PawnPushesAt(x: int, y: int, piece: Piece) returns (moves: seq<Move>)
      requires Valid() && OnBoard(x, y)
      ensures moves == PawnPushes(cells, x, y, piece)
    {
      var color := if IsWhite(piece) then White else Black;
      var dir := if color == White then -1 else 1;
      var startRow := if color == White then 6 else 1;
      moves := [];
      if 0 <= y + dir < 8 && board[y + dir, x] == Empty {
        AddMoveEmpty(cells, x, y, piece, x, y + dir);
        moves := [Move(Pos(x, y), Pos(x, y + dir), piece, None)];
        if y == startRow && 0 <= y + dir * 2 < 8 && board[y + dir * 2, x] == Empty {
          AddMoveEmpty(cells, x, y, piece, x, y + dir * 2);
          moves := moves + [Move(Pos(x, y), Pos(x, y + dir * 2), piece, None)];
        }
      }
    }

    /** The pawn's diagonal `forEach` over `files` on row `ny`: the probe goes to `enemyCheck` unchecked and throws off the board. */
    method DiagonalMoves(x: int, y: int, piece: Piece, ny: int, files: seq<int>) returns (r: Result<seq<Move>>)
      requires Valid()
      ensures r == Diagonals(cells, x, y, piece, ny, files)
    {
      ghost var g := cells;
      var color := if IsWhite(piece) then White else Black;
      var moves: seq<Move> := [];
      for i := 0 to |files|
        invariant Diagonals(g, x, y, piece, ny, files[..i]) == Ok(moves)
      {
        var nx := files[i];
        DiagonalsNext(g, x, y, piece, ny, files, i, moves);
        if !(0 <= ny < 8 && 0 <= nx < 8) {
          DiagonalsSticky(g, x, y, piece, ny, files, i + 1);
          return TypeError;
        }
        var target := board[ny, nx];
        if IsEnemy(color, target) {
          var more := AddMoveAt(x, y, piece, nx, ny);
          moves := moves + more;
        } else {
          assert moves + [] == moves;
        }
      }
      assert files[..|files|] == files;
      r := Ok(moves);
    }

    /** The `case 'p'` branch: the pushes, then the diagonal probes on files x - 1 and x + 1. */
    method PawnMovesAt(x: int, y: int, piece: Piece) returns (r: Result<seq<Move>>)
      requires Valid() && OnBoard(x, y)
      ensures r == PawnMoves(cells, x, y, piece)
    {
      var color := if IsWhite(piece) then White else Black;
      var dir := if color == White then -1 else 1;
      var pushes := PawnPushesAt(x, y, piece);
      var diagonal := DiagonalMoves(x, y, piece, y + dir, [x - 1, x + 1]);
      if diagonal.TypeError? {
        return TypeError;
      }
      r := Ok(pushes + diagonal.value);
    }

    /** `getMoves(x, y)`: the moves of the piece on (x, y), or the pawn probe's TypeError. */
    method GetMoves(x: int, y: int) returns (r: Result<seq<Move>>)
      requires Valid() && OnBoard(x, y)
      ensures r == Moves(cells, x, y)
    {
      var piece := board[y, x];
      if piece == Empty {
        return Ok([]);
      }
      match piece.kind {
        case Pawn =>
          r := PawnMovesAt(x, y, piece);
        case Rook =>
          var moves := RayMoves(x, y, piece, RookDirs);
          r := Ok(moves);
        case Bishop =>
          var moves := RayMoves(x, y, piece, BishopDirs);
          r := Ok(moves);
        case Queen =>
          var moves := RayMoves(x, y, piece, QueenDirs);
          r := Ok(moves);
        case Knight =>
          var moves := StepMoves(x, y, piece, KnightOffsets);
          r := Ok(moves);
        case King =>
          var moves := StepMoves(x, y, piece, KingOffsets);
          r := Ok(moves);
      }
    }

    /** `getAllMoves(color)`: the moves of every piece of that colour, in row-major order. */
    method GetAllMoves(color: Color) returns (r: Result<seq<Move>>)
      requires Valid()
      ensures r == AllMoves(cells, color)
    {
      ghost var g := cells;
      var moves: seq<Move> := [];
      for y := 0 to 8
        invariant ScanBefore(g, color, y, 0) == Ok(moves)
      {
        for x := 0 to 8
          invariant ScanBefore(g, color, y, x) == Ok(moves)
        {
          var p := board[y, x];
          if p == Empty {
            continue;
          }
          if (color == White && IsWhite(p)) || (color == Black && IsBlack(p)) {
            var more := GetMoves(x, y);
            if more.TypeError? {
              ScanSticky(g, color, y, x + 1);
              return TypeError;
            }
            moves := moves + more.value;
          }
        }
      }
      r := Ok(moves);
    }

    /** `makeComputerMove()`, with `Math.random()` returning `rand`; `threw` reports the TypeError of `getAllMoves`. */
    method MakeComputerMove(rand: real) returns (threw: bool)
      requires Valid() && 0.0 <= rand < 1.0
      modifies this, board
      ensures Valid() && board == old(board)
      ensures Step(Snapshot(), threw) == ComputerMove(old(Snapshot()), rand)
    {
      ghost var before := Snapshot();
      var all := GetAllMoves(computerColor);
      if all.TypeError? {
        return true;
      }
      var moves := all.value;
      if |moves| == 0 {
        return false;
      }
      AllMovesFacts(before.board, computerColor);
      var move := moves[Pick(rand, |moves|)];
      assert move in moves;
      MakeMove(move.from, move.to);
      threw := false;
    }

    /** `onSquareClick(x, y)`, with `Math.random()` returning `rand`; `threw` reports a TypeError escaping the handler. */
    method OnSquareClick(x: int, y: int, rand: real) returns (threw: bool)
      requires Valid() && 0.0 <= rand < 1.0
      modifies this, board
      ensures Valid() && board == old(board)
      ensures Step(Snapshot(), threw) == Click(old(Snapshot()), x, y, rand)
    {
      if !(0 <= y < 8 && 0 <= x < 8) {
        return true;
      }
      var piece := board[y, x];
      if selected.Some? {
        var from := selected.value;
        if from.x == x && from.y == y {
          selected := None;
          return false;
        }
        var moves := GetMoves(from.x, from.y);
        if moves.TypeError? {
          return true;
        }
        if Pos(x, y) in Dests(moves.value) {
          MakeMove(from, Pos(x, y));
          selected := None;
          if vsComputer && currentPlayer == computerColor {
            threw := MakeComputerMove(rand);
          } else {
            threw := false;
          }
          return;
        }
      }
      if (currentPlayer == White && IsWhite(piece)) || (currentPlayer == Black && IsBlack(piece)) {
        selected := Some(Pos(x, y));
      }
      threw := false;
    }
  }
}
