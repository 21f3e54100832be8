/**
 * What the move generator of ChessRules guarantees: the shape of every generated
 * move, the ray rule, the pawn rules (including when the pawn probe throws), the
 * knight and king offsets, the queen as rook plus bishop, and what `getAllMoves`
 * returns or throws.
 */
module ChessRuleFacts {
  import opened Wrappers
  import opened ChessRules

  /** The destination squares of a list of moves. */
  function Dests(ms: seq<Move>): set<Pos> {
    set m | m in ms :: m.to
  }

  /**
   * A move generated for the piece on (x, y): it starts there with that piece,
   * ends on another square of the board that is empty or holds an enemy, and its
   * capture is that enemy (None on an empty square).
   */
  predicate WellFormed(g: Grid, x: int, y: int, m: Move)
    requires IsBoard(g)
  {
    && m.from == Pos(x, y)
    && OnBoard(x, y)
    && m.piece == g[y][x]
    && OnBoard(m.to.x, m.to.y)
    && m.to != m.from
    && (g[m.to.y][m.to.x] == Empty || IsEnemy(ColorOf(m.piece), g[m.to.y][m.to.x]))
    && m.capture == (if g[m.to.y][m.to.x] == Empty then None else Some(g[m.to.y][m.to.x]))
  }

  predicate AllWellFormed(g: Grid, x: int, y: int, ms: seq<Move>)
    requires IsBoard(g)
  {
    forall m :: m in ms ==> WellFormed(g, x, y, m)
  }

  /** A piece is never its own enemy, whatever its colour. */
  lemma NotOwnEnemy(p: Piece)
    requires p != Empty
    ensures ColorOf(p) == p.color
    ensures !IsEnemy(ColorOf(p), p)
  {
  }

  lemma DestsConcat(a: seq<Move>, b: seq<Move>)
    ensures Dests(a + b) == Dests(a) + Dests(b)
  {
    assert forall m :: m in a + b <==> m in a || m in b;
  }

  lemma AddMoveWellFormed(g: Grid, x: int, y: int, nx: int, ny: int)
    requires IsBoard(g) && OnBoard(x, y) && g[y][x] != Empty
    ensures AllWellFormed(g, x, y, AddMove(g, x, y, g[y][x], nx, ny))
  {
    NotOwnEnemy(g[y][x]);
  }

  // ---------------------------------------------------------------------------
  // Rays (rook, bishop, queen)
  // ---------------------------------------------------------------------------

  lemma {:induction false} RayWellFormed(g: Grid, x: int, y: int, d: Direction, nx: int, ny: int)
    requires IsBoard(g) && OnBoard(x, y) && g[y][x] != Empty
    ensures AllWellFormed(g, x, y, Ray(g, x, y, g[y][x], d, nx, ny))
    decreases Remaining(nx, d.0) + Remaining(ny, d.1)
  {
    if OnBoard(nx, ny) {
      AddMoveWellFormed(g, x, y, nx, ny);
      if g[ny][nx] == Empty {
        RayWellFormed(g, x, y, d, nx + d.0, ny + d.1);
        AllWellFormedConcat(g, x, y, AddMove(g, x, y, g[y][x], nx, ny), Ray(g, x, y, g[y][x], d, nx + d.0, ny + d.1));
      }
    }
  }

  /** Two lists of well-formed moves, one after the other, are well formed. */
  lemma AllWellFormedConcat(g: Grid, x: int, y: int, a: seq<Move>, b: seq<Move>)
    requires IsBoard(g) && AllWellFormed(g, x, y, a) && AllWellFormed(g, x, y, b)
    ensures AllWellFormed(g, x, y, a + b)
  {
  }

  lemma {:induction false} RaysWellFormed(g: Grid, x: int, y: int, dirs: seq<Direction>)
    requires IsBoard(g) && OnBoard(x, y) && g[y][x] != Empty
    ensures AllWellFormed(g, x, y, Rays(g, x, y, g[y][x], dirs))
    decreases |dirs|
  {
    if dirs != [] {
      var d := dirs[|dirs| - 1];
      RaysWellFormed(g, x, y, dirs[..|dirs| - 1]);
      RayWellFormed(g, x, y, d, x + d.0, y + d.1);
    }
  }

  function Next(p: Pos, d: Direction): Pos {
    Pos(p.x + d.0, p.y + d.1)
  }

  /** Where a ray of colour `c` may not go on: off the board, or a square of its own side. */
  predicate Blocked(g: Grid, c: Color, p: Pos)
    requires IsBoard(g)
  {
    !OnBoard(p.x, p.y) || (g[p.y][p.x] != Empty && !IsEnemy(c, g[p.y][p.x]))
  }

  /**
   * The shape of a ray of colour `c` along `d` from `start`: the destinations are
   * consecutive squares along `d` beginning at `start`; every one but the last is
   * empty; and the ray ends either with an enemy capture or, after its last empty
   * square, where it is blocked (the edge or a piece of its own side, not added).
   */
  ghost predicate RayShaped(g: Grid, c: Color, ms: seq<Move>, d: Direction, start: Pos)
    requires IsBoard(g)
  {
    && (|ms| > 0 ==> ms[0].to == start)
    && (forall i :: 0 < i < |ms| ==> ms[i].to == Next(ms[i - 1].to, d))
    && (forall i :: 0 <= i < |ms| - 1 ==> ms[i].capture == None)
    && (ms == [] ==> Blocked(g, c, start))
    && (ms != [] && ms[|ms| - 1].capture == None ==> Blocked(g, c, Next(ms[|ms| - 1].to, d)))
  }

  /** The ray rule: every ray has the shape above, so nothing beyond its stop is ever added. */
  lemma {:induction false} RayShape(g: Grid, x: int, y: int, d: Direction, nx: int, ny: int)
    requires IsBoard(g) && OnBoard(x, y) && g[y][x] != Empty
    ensures RayShaped(g, ColorOf(g[y][x]), Ray(g, x, y, g[y][x], d, nx, ny), d, Pos(nx, ny))
    decreases Remaining(nx, d.0) + Remaining(ny, d.1)
  {
    var piece := g[y][x];
    NotOwnEnemy(piece);
    if !OnBoard(nx, ny) {
      assert Ray(g, x, y, piece, d, nx, ny) == [];
    } else if g[ny][nx] == Empty {
      var rest := Ray(g, x, y, piece, d, nx + d.0, ny + d.1);
      RayShape(g, x, y, d, nx + d.0, ny + d.1);
      var m := Move(Pos(x, y), Pos(nx, ny), piece, None);
      assert Ray(g, x, y, piece, d, nx, ny) == [m] + rest;
      ShapedCons(g, ColorOf(piece), m, rest, d, Pos(nx, ny));
    } else if IsEnemy(ColorOf(piece), g[ny][nx]) {
      assert Ray(g, x, y, piece, d, nx, ny) == [Move(Pos(x, y), Pos(nx, ny), piece, Some(g[ny][nx]))];
    } else {
      assert Ray(g, x, y, piece, d, nx, ny) == [];
    }
  }

  /** A quiet move to `start` in front of a ray shaped from the next square on is a ray shaped from `start`. */
  lemma ShapedCons(g: Grid, c: Color, m: Move, rest: seq<Move>, d: Direction, start: Pos)
    requires IsBoard(g) && m.to == start && m.capture == None
    requires RayShaped(g, c, rest, d, Next(start, d))
    ensures RayShaped(g, c, [m] + rest, d, start)
  {
    var ms := [m] + rest;
    forall i | 0 < i < |ms|
      ensures ms[i].to == Next(ms[i - 1].to, d)
    {
      if i > 1 {
        assert ms[i] == rest[i - 1] && ms[i - 1] == rest[i - 2];
      }
    }
  }

  /**
   * Concatenation regroups freely. Kept as a lemma of its own: asserted inside
   * RaysConcat, where the ray functions are in scope, the same fact is far
   * costlier to prove.
   */
  lemma AppendAssoc<T>(a: seq<T>, b: seq<T>, c: seq<T>)
    ensures (a + b) + c == a + (b + c)
  {
  }

  /** One more direction adds its ray at the end. */
  lemma RaysSnoc(g: Grid, x: int, y: int, piece: Piece, dirs: seq<Direction>, d: Direction)
    requires IsBoard(g)
    ensures Rays(g, x, y, piece, dirs + [d]) == Rays(g, x, y, piece, dirs) + Ray(g, x, y, piece, d, x + d.0, y + d.1)
  {
    var s := dirs + [d];
    assert s[..|s| - 1] == dirs;
  }

  lemma {:induction false} RaysConcat(g: Grid, x: int, y: int, piece: Piece, a: seq<Direction>, b: seq<Direction>)
    requires IsBoard(g)
    ensures Rays(g, x, y, piece, a + b) == Rays(g, x, y, piece, a) + Rays(g, x, y, piece, b)
    decreases |b|
  {
    if b == [] {
      assert a + b == a;
    } else {
      var init := b[..|b| - 1];
      var d := b[|b| - 1];
      assert b == init + [d];
      RaysConcat(g, x, y, piece, a, init);
      RaysSnoc(g, x, y, piece, init, d);
      RaysSnoc(g, x, y, piece, a + init, d);
      assert a + b == (a + init) + [d];
      AppendAssoc(Rays(g, x, y, piece, a), Rays(g, x, y, piece, init), Ray(g, x, y, piece, d, x + d.0, y + d.1));
    }
  }

  /** The queen's directions are the rook's followed by the bishop's. */
  lemma QueenDirsSplit()
    ensures QueenDirs == RookDirs + BishopDirs
  {
  }

  /** The queen's rays are the rook's rays followed by the bishop's. */
  lemma QueenIsRookThenBishop(g: Grid, x: int, y: int, piece: Piece)
    requires IsBoard(g)
    ensures Rays(g, x, y, piece, QueenDirs) == Rays(g, x, y, piece, RookDirs) + Rays(g, x, y, piece, BishopDirs)
  {
    QueenDirsSplit();
    RaysConcat(g, x, y, piece, RookDirs, BishopDirs);
  }

  // ---------------------------------------------------------------------------
  // Knight and king
  // ---------------------------------------------------------------------------

  /** p is (x, y) shifted by one of `offsets`, on the board, and empty or an enemy of `c`. */
  predicate StepTarget(g: Grid, x: int, y: int, c: Color, offsets: seq<(int, int)>, p: Pos)
    requires IsBoard(g)
  {
    exists i :: 0 <= i < |offsets| && p == Pos(x + offsets[i].0, y + offsets[i].1)
      && OnBoard(p.x, p.y) && (g[p.y][p.x] == Empty || IsEnemy(c, g[p.y][p.x]))
  }

  lemma {:induction false} StepsWellFormed(g: Grid, x: int, y: int, offsets: seq<(int, int)>)
    requires IsBoard(g) && OnBoard(x, y) && g[y][x] != Empty
    ensures AllWellFormed(g, x, y, Steps(g, x, y, g[y][x], offsets))
    decreases |offsets|
  {
    if offsets != [] {
      var o := offsets[|offsets| - 1];
      StepsWellFormed(g, x, y, offsets[..|offsets| - 1]);
      AddMoveWellFormed(g, x, y, x + o.0, y + o.1);
    }
  }

  /** One more offset adds exactly its own square to the step targets. */
  lemma StepTargetSnoc(g: Grid, x: int, y: int, c: Color, offsets: seq<(int, int)>, p: Pos)
    requires IsBoard(g) && offsets != []
    ensures var o := offsets[|offsets| - 1];
      StepTarget(g, x, y, c, offsets, p) <==>
        StepTarget(g, x, y, c, offsets[..|offsets| - 1], p)
        || (p == Pos(x + o.0, y + o.1) && OnBoard(p.x, p.y) && (g[p.y][p.x] == Empty || IsEnemy(c, g[p.y][p.x])))
  {
    var init := offsets[..|offsets| - 1];
    if StepTarget(g, x, y, c, init, p) {
      var i :| 0 <= i < |init| && p == Pos(x + init[i].0, y + init[i].1)
        && OnBoard(p.x, p.y) && (g[p.y][p.x] == Empty || IsEnemy(c, g[p.y][p.x]));
      assert offsets[i] == init[i];
    }
    if StepTarget(g, x, y, c, offsets, p) {
      var i :| 0 <= i < |offsets| && p == Pos(x + offsets[i].0, y + offsets[i].1)
        && OnBoard(p.x, p.y) && (g[p.y][p.x] == Empty || IsEnemy(c, g[p.y][p.x]));
      if i < |init| {
        assert init[i] == offsets[i];
      }
    }
  }

  /** One more offset adds its own square to the destinations when it is on the board and empty or an enemy. */
  lemma StepsDestsSnoc(g: Grid, x: int, y: int, piece: Piece, offsets: seq<(int, int)>)
    requires IsBoard(g) && offsets != []
    ensures var o := offsets[|offsets| - 1];
      var nx, ny := x + o.0, y + o.1;
      Dests(Steps(g, x, y, piece, offsets)) ==
        Dests(Steps(g, x, y, piece, offsets[..|offsets| - 1])) +
          if OnBoard(nx, ny) && (g[ny][nx] == Empty || IsEnemy(ColorOf(piece), g[ny][nx])) then {Pos(nx, ny)} else {}
  {
    var init := offsets[..|offsets| - 1];
    var o := offsets[|offsets| - 1];
    var nx, ny := x + o.0, y + o.1;
    if OnBoard(nx, ny) && (g[ny][nx] == Empty || IsEnemy(ColorOf(piece), g[ny][nx])) {
      var m := Move(Pos(x, y), Pos(nx, ny), piece, if g[ny][nx] == Empty then None else Some(g[ny][nx]));
      assert Steps(g, x, y, piece, offsets) == Steps(g, x, y, piece, init) + [m];
      DestsConcat(Steps(g, x, y, piece, init), [m]);
      DestsSingle(m);
    }
  }

  /** A single move has its own square as its only destination. */
  lemma DestsSingle(m: Move)
    ensures Dests([m]) == {m.to}
  {
    assert m in [m];
  }

  /** Knight and king: the destinations are exactly the offsets that land on the board on an empty or enemy square. */
  lemma {:induction false} StepsDestinations(g: Grid, x: int, y: int, piece: Piece, offsets: seq<(int, int)>)
    requires IsBoard(g)
    ensures forall p :: p in Dests(Steps(g, x, y, piece, offsets)) <==> StepTarget(g, x, y, ColorOf(piece), offsets, p)
    decreases |offsets|
  {
    if offsets == [] {
      assert Dests([]) == {};
    } else {
      StepsDestinations(g, x, y, piece, offsets[..|offsets| - 1]);
      StepsDestsSnoc(g, x, y, piece, offsets);
      forall p
        ensures p in Dests(Steps(g, x, y, piece, offsets)) <==> StepTarget(g, x, y, ColorOf(piece), offsets, p)
      {
        StepTargetSnoc(g, x, y, ColorOf(piece), offsets, p);
      }
    }
  }

  // ---------------------------------------------------------------------------
  // Pawns
  // ---------------------------------------------------------------------------

  /** The pawn probe throws: the pawn is on file 0 or 7, or its forward row is off the board. */
  predicate PawnProbeThrows(c: Color, x: int, y: int) {
    x == 0 || x == 7 || !(0 <= y + Forward(c) < 8)
  }

  /** The squares a pawn of colour `c` on (x, y) may move to. */
  predicate PawnTarget(g: Grid, x: int, y: int, c: Color, p: Pos)
    requires IsBoard(g) && OnBoard(x, y)
  {
    var dir := Forward(c);
    OnBoard(p.x, p.y) &&
    ( (p.x == x && p.y == y + dir && g[p.y][p.x] == Empty)
      || (p.x == x && p.y == y + 2 * dir && y == StartRow(c) && g[y + dir][x] == Empty && g[p.y][p.x] == Empty)
      || ((p.x == x - 1 || p.x == x + 1) && p.y == y + dir && IsEnemy(c, g[p.y][p.x])))
  }

  lemma PawnPushesFacts(g: Grid, x: int, y: int)
    requires IsBoard(g) && OnBoard(x, y) && g[y][x] != Empty
    ensures AllWellFormed(g, x, y, PawnPushes(g, x, y, g[y][x]))
    ensures forall p :: p in Dests(PawnPushes(g, x, y, g[y][x])) <==>
      (OnBoard(p.x, p.y) && p.x == x &&
       ( (p.y == y + Forward(ColorOf(g[y][x])) && g[p.y][p.x] == Empty)
         || (p.y == y + 2 * Forward(ColorOf(g[y][x])) && y == StartRow(ColorOf(g[y][x]))
             && g[y + Forward(ColorOf(g[y][x]))][x] == Empty && g[p.y][p.x] == Empty)))
  {
    var piece := g[y][x];
    var dir := Forward(ColorOf(piece));
    AddMoveWellFormed(g, x, y, x, y + dir);
    AddMoveWellFormed(g, x, y, x, y + 2 * dir);
    var one := AddMove(g, x, y, piece, x, y + dir);
    var two := AddMove(g, x, y, piece, x, y + 2 * dir);
    DestsConcat(one, two);
    DestsConcat(one, []);
  }

  /** The diagonal probes over any list of files: they throw at the first file off the board. */
  lemma {:induction false} DiagonalsGeneral(g: Grid, x: int, y: int, ny: int, files: seq<int>)
    requires IsBoard(g) && OnBoard(x, y) && g[y][x] != Empty
    ensures var r := Diagonals(g, x, y, g[y][x], ny, files);
      && (r.TypeError? <==> exists f :: f in files && !OnBoard(f, ny))
      && (r.Ok? ==> AllWellFormed(g, x, y, r.value))
      && (r.Ok? ==> forall p :: p in Dests(r.value) <==>
            (p.y == ny && p.x in files && OnBoard(p.x, p.y) && IsEnemy(ColorOf(g[y][x]), g[p.y][p.x])))
    decreases |files|
  {
    var piece := g[y][x];
    var c := ColorOf(piece);
    if files == [] {
      assert Dests([]) == {};
    } else {
      var init := files[..|files| - 1];
      var nx := files[|files| - 1];
      assert files == init + [nx];
      DiagonalsGeneral(g, x, y, ny, init);
      var r0 := Diagonals(g, x, y, piece, ny, init);
      if r0.Ok? && OnBoard(nx, ny) {
        var last := if IsEnemy(c, g[ny][nx]) then AddMove(g, x, y, piece, nx, ny) else [];
        AddMoveWellFormed(g, x, y, nx, ny);
        DestsConcat(r0.value, last);
        assert Dests(last) == if IsEnemy(c, g[ny][nx]) then {Pos(nx, ny)} else {};
      }
    }
  }

  lemma DiagonalsFacts(g: Grid, x: int, y: int)
    requires IsBoard(g) && OnBoard(x, y) && g[y][x] != Empty
    ensures var c := ColorOf(g[y][x]);
      var r := Diagonals(g, x, y, g[y][x], y + Forward(c), [x - 1, x + 1]);
      && (r.TypeError? <==> PawnProbeThrows(c, x, y))
      && (r.Ok? ==> AllWellFormed(g, x, y, r.value))
      && (r.Ok? ==> forall p :: p in Dests(r.value) <==>
            (OnBoard(p.x, p.y) && (p.x == x - 1 || p.x == x + 1) && p.y == y + Forward(c) && IsEnemy(c, g[p.y][p.x])))
  {
    var c := ColorOf(g[y][x]);
    var ny := y + Forward(c);
    DiagonalsGeneral(g, x, y, ny, [x - 1, x + 1]);
    if PawnProbeThrows(c, x, y) {
      if !OnBoard(x - 1, ny) {
        assert x - 1 in [x - 1, x + 1];
      } else {
        assert x + 1 in [x - 1, x + 1] && !OnBoard(x + 1, ny);
      }
    }
  }

  /** Only the pawn probe throws: on file 0 or 7, or with its forward row off the board. */
  lemma PawnMovesFacts(g: Grid, x: int, y: int)
    requires IsBoard(g) && OnBoard(x, y) && g[y][x] != Empty
    ensures var r := PawnMoves(g, x, y, g[y][x]);
      && (r.TypeError? <==> PawnProbeThrows(ColorOf(g[y][x]), x, y))
      && (r.Ok? ==> AllWellFormed(g, x, y, r.value))
      && (r.Ok? ==> forall p :: p in Dests(r.value) <==> PawnTarget(g, x, y, ColorOf(g[y][x]), p))
  {
    var piece := g[y][x];
    var c := ColorOf(piece);
    PawnPushesFacts(g, x, y);
    DiagonalsFacts(g, x, y);
    var r := Diagonals(g, x, y, piece, y + Forward(c), [x - 1, x + 1]);
    if r.Ok? {
      DestsConcat(PawnPushes(g, x, y, piece), r.value);
    }
  }

  // ---------------------------------------------------------------------------
  // getMoves and getAllMoves
  // ---------------------------------------------------------------------------

  /** The pieces whose `getMoves` throws: a pawn whose probe throws. */
  predicate StuckPawn(g: Grid, x: int, y: int)
    requires IsBoard(g) && OnBoard(x, y)
  {
    g[y][x].Occupied? && g[y][x].kind == Pawn && PawnProbeThrows(g[y][x].color, x, y)
  }

  /**
   * `getMoves`: an empty square has no moves; otherwise it throws exactly for a
   * pawn whose probe throws, and every move it returns is well formed.
   */
  lemma MovesFacts(g: Grid, x: int, y: int)
    requires IsBoard(g) && OnBoard(x, y)
    ensures g[y][x] == Empty ==> Moves(g, x, y) == Ok([])
    ensures Moves(g, x, y).TypeError? <==> StuckPawn(g, x, y)
    ensures Moves(g, x, y).Ok? ==> AllWellFormed(g, x, y, Moves(g, x, y).value)
  {
    var piece := g[y][x];
    if piece != Empty {
      NotOwnEnemy(piece);
      match piece.kind
      case Pawn => PawnMovesFacts(g, x, y);
      case Rook => RaysWellFormed(g, x, y, RookDirs);
      case Bishop => RaysWellFormed(g, x, y, BishopDirs);
      case Queen => RaysWellFormed(g, x, y, QueenDirs);
      case Knight => StepsWellFormed(g, x, y, KnightOffsets);
      case King => StepsWellFormed(g, x, y, KingOffsets);
    }
  }

  /** Square (px, py) comes before square (x, y) in the row-major scan. */
  predicate ScannedBefore(px: int, py: int, x: int, y: int) {
    py < y || (py == y && px < x)
  }

  /** A stuck pawn of colour `c` stands on (px, py), before (x, y) in the scan. */
  predicate StuckBefore(g: Grid, c: Color, px: int, py: int, x: int, y: int)
    requires IsBoard(g)
  {
    OnBoard(px, py) && ScannedBefore(px, py, x, y) && Owns(c, g[py][px]) && StuckPawn(g, px, py)
  }

  /** Some stuck pawn of colour `c` stands before (x, y) in the scan. */
  ghost predicate AnyStuckBefore(g: Grid, c: Color, x: int, y: int)
    requires IsBoard(g)
  {
    exists px, py :: StuckBefore(g, c, px, py, x, y)
  }

  /** What `getAllMoves` has gathered so far: moves of pieces of colour `c`, each well formed. */
  predicate GatheredFrom(g: Grid, c: Color, ms: seq<Move>)
    requires IsBoard(g)
  {
    forall m :: m in ms ==> OnBoard(m.from.x, m.from.y) && Owns(c, m.piece) && WellFormed(g, m.from.x, m.from.y, m)
  }

  /** One more square throws exactly when the scan so far threw or that square holds a stuck pawn of colour `c`. */
  lemma ScanStep(g: Grid, c: Color, y: int, x: int)
    requires IsBoard(g) && 0 <= y < 8 && 0 < x <= 8
    ensures ScanBefore(g, c, y, x).TypeError? <==>
      ScanBefore(g, c, y, x - 1).TypeError? || (Owns(c, g[y][x - 1]) && StuckPawn(g, x - 1, y))
  {
    MovesFacts(g, x - 1, y);
  }

  /** Row y starts where row y - 1 (`above`) ends. */
  lemma StuckBeforeRowStart(g: Grid, c: Color, above: int, y: int)
    requires IsBoard(g) && 0 < y <= 8 && above == y - 1
    ensures AnyStuckBefore(g, c, 8, above) <==> AnyStuckBefore(g, c, 0, y)
  {
    if AnyStuckBefore(g, c, 8, above) {
      var px, py :| StuckBefore(g, c, px, py, 8, above);
      assert StuckBefore(g, c, px, py, 0, y);
    }
    if AnyStuckBefore(g, c, 0, y) {
      var px, py :| StuckBefore(g, c, px, py, 0, y);
      assert StuckBefore(g, c, px, py, 8, above);
    }
  }

  /** The squares before (x, y) are those before (x - 1, y), called `left`, and (left, y) itself. */
  lemma StuckBeforeNextSquare(g: Grid, c: Color, y: int, left: int, x: int)
    requires IsBoard(g) && 0 <= y < 8 && 0 < x <= 8 && left == x - 1
    ensures AnyStuckBefore(g, c, x, y) <==>
      AnyStuckBefore(g, c, left, y) || (Owns(c, g[y][left]) && StuckPawn(g, left, y))
  {
    if Owns(c, g[y][left]) && StuckPawn(g, left, y) {
      assert StuckBefore(g, c, left, y, x, y);
    }
    if AnyStuckBefore(g, c, left, y) {
      var px, py :| StuckBefore(g, c, px, py, left, y);
      assert StuckBefore(g, c, px, py, x, y);
    }
    if AnyStuckBefore(g, c, x, y) {
      var px, py :| StuckBefore(g, c, px, py, x, y);
      if !(px == left && py == y) {
        assert StuckBefore(g, c, px, py, left, y);
      }
    }
  }

  lemma {:induction false} ScanThrows(g: Grid, c: Color, y: int, x: int)
    requires IsBoard(g) && 0 <= y <= 8 && 0 <= x <= 8 && (y < 8 || x == 0)
    ensures ScanBefore(g, c, y, x).TypeError? <==> AnyStuckBefore(g, c, x, y)
    decreases y, x
  {
    if x == 0 && y > 0 {
      ScanThrows(g, c, y - 1, 8);
      StuckBeforeRowStart(g, c, y - 1, y);
    } else if x > 0 {
      ScanThrows(g, c, y, x - 1);
      ScanStep(g, c, y, x);
      StuckBeforeNextSquare(g, c, y, x - 1, x);
    }
  }

  lemma {:induction false} ScanGathered(g: Grid, c: Color, y: int, x: int)
    requires IsBoard(g) && 0 <= y <= 8 && 0 <= x <= 8 && (y < 8 || x == 0)
    ensures ScanBefore(g, c, y, x).Ok? ==> GatheredFrom(g, c, ScanBefore(g, c, y, x).value)
    decreases y, x
  {
    if x == 0 && y > 0 {
      ScanGathered(g, c, y - 1, 8);
    } else if x > 0 {
      ScanGathered(g, c, y, x - 1);
      MovesFacts(g, x - 1, y);
    }
  }

  /** Once the scan has thrown, it has thrown for good: the error reaches `getAllMoves`. */
  lemma ScanSticky(g: Grid, c: Color, y: int, x: int)
    requires IsBoard(g) && 0 <= y <= 8 && 0 <= x <= 8 && (y < 8 || x == 0)
    requires ScanBefore(g, c, y, x).TypeError?
    ensures AllMoves(g, c).TypeError?
  {
    ScanThrows(g, c, y, x);
    var px, py :| StuckBefore(g, c, px, py, x, y);
    assert StuckBefore(g, c, px, py, 0, 8);
    ScanThrows(g, c, 8, 0);
  }

  /**
   * `getAllMoves(c)` throws exactly when some piece of colour `c` is a pawn on file
   * 0 or 7 or on its last rank; otherwise it returns only well-formed moves of the
   * pieces of colour `c`.
   */
  lemma AllMovesFacts(g: Grid, c: Color)
    requires IsBoard(g)
    ensures AllMoves(g, c).TypeError? <==> exists x, y :: OnBoard(x, y) && Owns(c, g[y][x]) && StuckPawn(g, x, y)
    ensures AllMoves(g, c).Ok? ==> GatheredFrom(g, c, AllMoves(g, c).value)
  {
    ScanThrows(g, c, 8, 0);
    ScanGathered(g, c, 8, 0);
    if AllMoves(g, c).TypeError? {
      var px, py :| StuckBefore(g, c, px, py, 0, 8);
      assert OnBoard(px, py) && Owns(c, g[py][px]) && StuckPawn(g, px, py);
    }
    if exists x, y :: OnBoard(x, y) && Owns(c, g[y][x]) && StuckPawn(g, x, y) {
      var x, y :| OnBoard(x, y) && Owns(c, g[y][x]) && StuckPawn(g, x, y);
      assert StuckBefore(g, c, x, y, 0, 8);
    }
  }

  /** From the starting position `getAllMoves` throws for both sides (the pawns on files 0 and 7). */
  lemma StartPositionAllMovesThrow()
    ensures AllMoves(StartGrid(), White) == TypeError
    ensures AllMoves(StartGrid(), Black) == TypeError
  {
    var g := StartGrid();
    AllMovesFacts(g, White);
    AllMovesFacts(g, Black);
    assert g[6][0] == Occupied(White, Pawn) && StuckPawn(g, 0, 6);
    assert g[1][0] == Occupied(Black, Pawn) && StuckPawn(g, 0, 1);
  }
}
