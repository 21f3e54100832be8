/**
 * The state machine of the chess component as values: the game state, `makeMove`,
 * `makeComputerMove` and `onSquareClick` as transition functions, and what they
 * guarantee. The component class in ChessComponent is proved to follow them.
 */
module ChessPlay {
  import opened Wrappers
  import opened ChessRules
  import opened ChessRuleFacts

  /** The fields of the component: board, selected square, side to move, and the computer settings. */
  datatype Game = Game(board: Grid, selected: Option<Pos>, currentPlayer: Color, vsComputer: bool, computerColor: Color)

  /** The state after an event handler, and whether the handler ended by throwing a TypeError. */
  datatype Step = Step(game: Game, threw: bool)

  /** The board has 8 rows of 8 squares and the selected square, if any, is on it. */
  predicate ValidGame(gm: Game) {
    IsBoard(gm.board) && (gm.selected.Some? ==> OnBoard(gm.selected.value.x, gm.selected.value.y))
  }

  /** What the click handler keeps: on top of ValidGame, a selected square holds a piece of the side to move. */
  predicate SelectionOwned(gm: Game) {
    ValidGame(gm) && (gm.selected.Some? ==> Owns(gm.currentPlayer, gm.board[gm.selected.value.y][gm.selected.value.x]))
  }

  /** After `resetBoard`: the starting position, white to move, nothing selected. */
  function Reset(gm: Game): (r: Game)
    ensures SelectionOwned(r)
    ensures r.board == StartGrid() && r.currentPlayer == White && r.selected == None
    ensures r.vsComputer == gm.vsComputer && r.computerColor == gm.computerColor
  {
    gm.(board := StartGrid(), currentPlayer := White, selected := None)
  }

  /** The two assignments of `makeMove` on the board: the origin's piece is written to the destination, then the origin is cleared. */
  function Relocate(g: Grid, from: Pos, to: Pos): (r: Grid)
    requires IsBoard(g) && OnBoard(from.x, from.y) && OnBoard(to.x, to.y)
    ensures IsBoard(r)
    ensures r[from.y][from.x] == Empty
    ensures to != from ==> r[to.y][to.x] == g[from.y][from.x]
    ensures forall x, y :: OnBoard(x, y) && Pos(x, y) != from && Pos(x, y) != to ==> r[y][x] == g[y][x]
  {
    var piece := g[from.y][from.x];
    var g1 := g[to.y := g[to.y][to.x := piece]];
    g1[from.y := g1[from.y][from.x := Empty]]
  }

  /** `makeMove(from, to)`: relocate the piece and hand the turn to the other side. */
  function ApplyMove(gm: Game, from: Pos, to: Pos): (r: Game)
    requires ValidGame(gm) && OnBoard(from.x, from.y) && OnBoard(to.x, to.y)
    ensures ValidGame(r)
    ensures r.currentPlayer != gm.currentPlayer && Opponent(r.currentPlayer) == gm.currentPlayer
    ensures r.board[from.y][from.x] == Empty
    ensures to != from ==> r.board[to.y][to.x] == gm.board[from.y][from.x]
    ensures forall x, y :: OnBoard(x, y) && Pos(x, y) != from && Pos(x, y) != to ==> r.board[y][x] == gm.board[y][x]
    ensures r.selected == gm.selected && r.vsComputer == gm.vsComputer && r.computerColor == gm.computerColor
  {
    gm.(board := Relocate(gm.board, from, to), currentPlayer := Opponent(gm.currentPlayer))
  }

  /** Two moves in a row give the turn back to the side that moved first. */
  lemma TwoMovesRestoreTurn(gm: Game, a: Pos, b: Pos, c: Pos, d: Pos)
    requires ValidGame(gm) && OnBoard(a.x, a.y) && OnBoard(b.x, b.y) && OnBoard(c.x, c.y) && OnBoard(d.x, d.y)
    ensures ApplyMove(ApplyMove(gm, a, b), c, d).currentPlayer == gm.currentPlayer
  {
    var once := ApplyMove(gm, a, b);
    assert Opponent(once.currentPlayer) == gm.currentPlayer;
  }

  /** `Math.floor(Math.random() * n)` for a random number `rand` in [0, 1): an index below n. */
  function Pick(rand: real, n: nat): (r: nat)
    requires 0.0 <= rand < 1.0 && n > 0
    ensures r < n
  {
    var scaled := rand * n as real;
    assert 0.0 <= scaled < n as real by {
      assert rand * n as real <= 1.0 * n as real;
      assert rand * n as real != 1.0 * n as real;
    }
    scaled.Floor
  }

  /** `makeComputerMove` with `Math.random()` returning `rand`. */
  function ComputerMove(gm: Game, rand: real): (st: Step)
    requires ValidGame(gm) && 0.0 <= rand < 1.0
    ensures ValidGame(st.game)
  {
    AllMovesFacts(gm.board, gm.computerColor);
    match AllMoves(gm.board, gm.computerColor)
    case TypeError => Step(gm, true)
    case Ok(ms) =>
      if |ms| == 0 then Step(gm, false)
      else
        var m := ms[Pick(rand, |ms|)];
        assert m in ms;
        Step(ApplyMove(gm, m.from, m.to), false)
  }

  /**
   * `makeComputerMove` throws exactly when `getAllMoves` does and then changes nothing;
   * with no moves it changes nothing; otherwise it applies exactly one of the generated
   * moves, which moves a piece of the computer's colour onto an empty or enemy square.
   */
  lemma ComputerMoveFacts(gm: Game, rand: real)
    requires ValidGame(gm) && 0.0 <= rand < 1.0
    ensures var st := ComputerMove(gm, rand);
      && (st.threw <==> exists x, y :: OnBoard(x, y) && Owns(gm.computerColor, gm.board[y][x]) && StuckPawn(gm.board, x, y))
      && (st.threw ==> st.game == gm)
      && (AllMoves(gm.board, gm.computerColor) == Ok([]) ==> st == Step(gm, false))
      && (AllMoves(gm.board, gm.computerColor).Ok? && AllMoves(gm.board, gm.computerColor) != Ok([]) ==>
            exists m :: m in AllMoves(gm.board, gm.computerColor).value
              && WellFormed(gm.board, m.from.x, m.from.y, m)
              && Owns(gm.computerColor, gm.board[m.from.y][m.from.x])
              && st.game == ApplyMove(gm, m.from, m.to))
  {
    var st := ComputerMove(gm, rand);
    var all := AllMoves(gm.board, gm.computerColor);
    AllMovesFacts(gm.board, gm.computerColor);
    if all.Ok? && |all.value| > 0 {
      var ms := all.value;
      var m := ms[Pick(rand, |ms|)];
      assert m in ms;
      assert st.game == ApplyMove(gm, m.from, m.to);
      assert WellFormed(gm.board, m.from.x, m.from.y, m) && Owns(gm.computerColor, m.piece);
    }
  }

  /** The selection rule at the end of `onSquareClick`: select the square when it holds a piece of the side to move. */
  function Select(gm: Game, x: int, y: int): (st: Step)
    requires ValidGame(gm) && OnBoard(x, y)
    ensures ValidGame(st.game) && !st.threw
    ensures st.game == (if Owns(gm.currentPlayer, gm.board[y][x]) then gm.(selected := Some(Pos(x, y))) else gm)
  {
    if Owns(gm.currentPlayer, gm.board[y][x]) then Step(gm.(selected := Some(Pos(x, y))), false)
    else Step(gm, false)
  }

  /**
   * `onSquareClick(x, y)`, with `Math.random()` returning `rand` should the computer
   * move. A click off the board throws before changing anything (`board[y]` or the
   * colour test of `undefined`).
   */
  function Click(gm: Game, x: int, y: int, rand: real): (st: Step)
    requires ValidGame(gm) && 0.0 <= rand < 1.0
    ensures ValidGame(st.game)
  {
    if !OnBoard(x, y) then Step(gm, true)
    else
      match gm.selected
      case None => Select(gm, x, y)
      case Some(s) =>
        if s == Pos(x, y) then Step(gm.(selected := None), false)
        else
          match Moves(gm.board, s.x, s.y)
          case TypeError => Step(gm, true)
          case Ok(ms) =>
            if Pos(x, y) in Dests(ms) then
              var moved := ApplyMove(gm, s, Pos(x, y)).(selected := None);
              if moved.vsComputer && moved.currentPlayer == moved.computerColor then ComputerMove(moved, rand)
              else Step(moved, false)
            else Select(gm, x, y)
  }

  /** A move of the human player: the clicked square is a destination generated for the selected piece. */
  predicate HumanMoves(gm: Game, x: int, y: int)
    requires ValidGame(gm)
  {
    && OnBoard(x, y)
    && gm.selected.Some?
    && gm.selected.value != Pos(x, y)
    && Moves(gm.board, gm.selected.value.x, gm.selected.value.y).Ok?
    && Pos(x, y) in Dests(Moves(gm.board, gm.selected.value.x, gm.selected.value.y).value)
  }

  /** Clicking the selected square again only clears the selection. */
  lemma ClickSelectedClears(gm: Game, rand: real)
    requires ValidGame(gm) && 0.0 <= rand < 1.0 && gm.selected.Some?
    ensures Click(gm, gm.selected.value.x, gm.selected.value.y, rand) == Step(gm.(selected := None), false)
  {
  }

  /**
   * A click that does not move changes only the selection, and only to the clicked
   * square when it holds a piece of the side to move; it throws only off the board or
   * when the selected piece's move generation throws, and then changes nothing.
   */
  lemma ClickWithoutMove(gm: Game, x: int, y: int, rand: real)
    requires ValidGame(gm) && 0.0 <= rand < 1.0
    requires !HumanMoves(gm, x, y) && gm.selected != Some(Pos(x, y))
    ensures var st := Click(gm, x, y, rand);
      && st.game.board == gm.board
      && st.game.currentPlayer == gm.currentPlayer
      && st.game.vsComputer == gm.vsComputer && st.game.computerColor == gm.computerColor
      && (st.game.selected != gm.selected ==>
            OnBoard(x, y) && st.game.selected == Some(Pos(x, y)) && Owns(gm.currentPlayer, gm.board[y][x]))
      && (st.threw <==> !OnBoard(x, y) || (gm.selected.Some? && StuckPawn(gm.board, gm.selected.value.x, gm.selected.value.y)))
      && (st.threw ==> st.game == gm)
      && (OnBoard(x, y) && !st.threw ==>
            st.game.selected == (if Owns(gm.currentPlayer, gm.board[y][x]) then Some(Pos(x, y)) else gm.selected))
  {
    if OnBoard(x, y) && gm.selected.Some? {
      MovesFacts(gm.board, gm.selected.value.x, gm.selected.value.y);
    }
  }

  /**
   * A click on a generated destination of the selected piece moves it there, clears
   * the selection and passes the turn; the computer then moves exactly when it is
   * enabled and now to move. When the selection was owned, the human moved a piece
   * of the side to move, onto an empty or enemy square.
   */
  lemma ClickMove(gm: Game, x: int, y: int, rand: real)
    requires ValidGame(gm) && 0.0 <= rand < 1.0 && HumanMoves(gm, x, y)
    ensures var s := gm.selected.value;
      var moved := ApplyMove(gm, s, Pos(x, y)).(selected := None);
      var st := Click(gm, x, y, rand);
      && moved.board[y][x] == gm.board[s.y][s.x]
      && moved.board[s.y][s.x] == Empty
      && moved.currentPlayer == Opponent(gm.currentPlayer)
      && (moved.vsComputer && moved.currentPlayer == moved.computerColor ==> st == ComputerMove(moved, rand))
      && (!(moved.vsComputer && moved.currentPlayer == moved.computerColor) ==> st == Step(moved, false))
      && (SelectionOwned(gm) ==>
            Owns(gm.currentPlayer, gm.board[s.y][s.x])
            && (gm.board[y][x] == Empty || IsEnemy(gm.currentPlayer, gm.board[y][x])))
  {
    var s := gm.selected.value;
    var ms := Moves(gm.board, s.x, s.y).value;
    MovesFacts(gm.board, s.x, s.y);
    var m :| m in ms && m.to == Pos(x, y);
    assert WellFormed(gm.board, s.x, s.y, m);
    if SelectionOwned(gm) {
      var p := gm.board[s.y][s.x];
      assert ColorOf(p) == gm.currentPlayer by {
        NotOwnEnemy(p);
      }
    }
  }

  /** Every click keeps the selection on a piece of the side to move. */
  lemma ClickKeepsSelectionOwned(gm: Game, x: int, y: int, rand: real)
    requires SelectionOwned(gm) && 0.0 <= rand < 1.0
    ensures SelectionOwned(Click(gm, x, y, rand).game)
  {
    if HumanMoves(gm, x, y) {
      var moved := ApplyMove(gm, gm.selected.value, Pos(x, y)).(selected := None);
      if moved.vsComputer && moved.currentPlayer == moved.computerColor {
        ComputerMoveFacts(moved, rand);
      }
    } else if gm.selected != Some(Pos(x, y)) {
      ClickWithoutMove(gm, x, y, rand);
    }
  }

  /** The game as `ngOnInit` leaves it: two human players, the computer (when enabled) playing black. */
  function NewGame(): (r: Game)
    ensures SelectionOwned(r) && r.board == StartGrid() && r.currentPlayer == White && !r.vsComputer
  {
    Game(StartGrid(), None, White, false, Black)
  }

  /** Opening 1. e4 by two clicks: the king's pawn is selected, then moved two squares, and black is to move. */
  lemma OpeningKingsPawn(rand: real)
    requires 0.0 <= rand < 1.0
    ensures var first := Click(NewGame(), 4, 6, rand);
      var second := Click(first.game, 4, 4, rand);
      && first == Step(NewGame().(selected := Some(Pos(4, 6))), false)
      && !second.threw
      && second.game.board[4][4] == Occupied(White, Pawn)
      && second.game.board[6][4] == Empty
      && second.game.currentPlayer == Black
      && second.game.selected == None
  {
    var g := StartGrid();
    var picked := NewGame().(selected := Some(Pos(4, 6)));
    assert Owns(White, g[6][4]);
    PawnMovesFacts(g, 4, 6);
    assert PawnTarget(g, 4, 6, White, Pos(4, 4));
    assert HumanMoves(picked, 4, 4);
  }

  /**
   * Against the computer playing black, the same opening throws once the human move is
   * made: the human move stays applied and the computer's `getAllMoves` throws on the
   * black pawns of files 0 and 7.
   */
  lemma OpeningAgainstComputerThrows(rand: real)
    requires 0.0 <= rand < 1.0
    ensures var start := NewGame().(vsComputer := true);
      var first := Click(start, 4, 6, rand);
      var second := Click(first.game, 4, 4, rand);
      && second.threw
      && second.game.board[4][4] == Occupied(White, Pawn)
      && second.game.currentPlayer == Black
  {
    var g := StartGrid();
    var start := NewGame().(vsComputer := true);
    var picked := start.(selected := Some(Pos(4, 6)));
    assert Owns(White, g[6][4]);
    PawnMovesFacts(g, 4, 6);
    assert PawnTarget(g, 4, 6, White, Pos(4, 4));
    assert HumanMoves(picked, 4, 4);
    AfterKingsPawnBlackThrows();
  }

  /** After 1. e4 from the starting position, black's `getAllMoves` throws on its pawn on file 0. */
  lemma AfterKingsPawnBlackThrows()
    ensures AllMoves(Relocate(StartGrid(), Pos(4, 6), Pos(4, 4)), Black) == TypeError
  {
    var b := Relocate(StartGrid(), Pos(4, 6), Pos(4, 4));
    AllMovesFacts(b, Black);
    assert b[1][0] == Occupied(Black, Pawn) && StuckPawn(b, 0, 1);
  }
}
