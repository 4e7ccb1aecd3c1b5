/**
 * The seven stages of the beginner's method and solveRubikCube, which
 * chains them. Every stage keeps a local cube and a move list and pushes
 * a move onto the list exactly when it turns the cube by it, so the cube
 * it hands on is its input with its moves applied.
 *
 * The `while` loops of the source have no bound. Here each one may run
 * at most `fuel` times; one that would run longer ends the whole run
 * with `Err(OutOfFuel)`.
 */
module Solver {
  import opened Wrappers
  import opened FaceColor
  import opened MoveNotation
  import opened CubeState
  import opened SolverTables
  import opened SolverSearch
  import MoveEngine

  /** What a stage hands on: the cube it reached and the moves it played. */
  datatype Stage = Stage(cube: Cube, moves: seq<Move>)

  /** Playing `done` and then `ms` is playing `done + ms`. */
  lemma Played(start: Cube, done: seq<Move>, ms: seq<Move>)
    ensures Apply(start, done + ms) == Apply(Apply(start, done), ms)
  {
    MoveEngine.ApplyAppend(start, done, ms);
  }

  /** rotateCubeOnce after `done` is rotateCube of `done + [m]`. */
  lemma PlayedOne(start: Cube, done: seq<Move>, m: Move)
    ensures Apply(start, done + [m]) == Turn(Apply(start, done), m)
  {
    MoveEngine.ApplyAppend(start, done, [m]);
    MoveEngine.ApplyOne(Apply(start, done), m);
  }

  // ---------------------------------------------------------------------
  // Stage 1: solveWhiteCross

  /** Which pair of adjustment helpers an edge table uses. */
  datatype Axis = FrontBack | RightLeft

  function UAdjustment(axis: Axis, c: Cube): (m: Option<Move>)
    ensures m.Some? ==> GetRotateNotationDetail(m.value).face == Up
  {
    match axis
    case FrontBack => UAdjustmentForFandB(c)
    case RightLeft => UAdjustmentForRandL(c)
  }

  function DAdjustment(axis: Axis, c: Cube): (m: Option<Move>)
    ensures m.Some? ==> GetRotateNotationDetail(m.value).face == Down
  {
    match axis
    case FrontBack => DAdjustmentForFandB(c)
    case RightLeft => DAdjustmentForRandL(c)
  }

  /** No slot of the table shows white. */
  predicate NoWhiteIn(c: Cube, entries: seq<SolvingEntry>)
  {
    forall i :: 0 <= i < |entries| ==> Look(c, entries[i].slot) != White
  }

  /** No down edge shows white. */
  predicate NoWhiteDownEdge(c: Cube)
  {
    forall i :: 0 <= i < |EdgeMoveKeys| ==> Look(c, EdgeMoveKeys[i]) != White
  }

  /** `ms` played before whatever `r` plays; an error stays that error. */
  function Then(ms: seq<Move>, r: Result<seq<Move>, SolverError>): Result<seq<Move>, SolverError>
  {
    match r
    case Ok(rest) => Ok(ms + rest)
    case Err(e) => Err(e)
  }

  /** Playing `a` and then `b` before `r` is playing `a + b` before it. */
  lemma ThenThen(a: seq<Move>, b: seq<Move>, r: Result<seq<Move>, SolverError>)
    ensures Then(a, Then(b, r)) == Then(a + b, r)
  {
    if r.Ok? {
      assert a + (b + r.value) == a + b + r.value;
    }
  }

  /** Playing nothing first changes nothing. */
  lemma ThenNothing(r: Result<seq<Move>, SolverError>)
    ensures Then([], r) == r
  {
    if r.Ok? {
      assert [] + r.value == r.value;
    }
  }

  /** A key of the `edgeMoves` table: one of the four down edges. */
  type DownEdgeKey = key: Slot | key in EdgeMoveKeys witness Slot(Down, 0, 1)

  /**
   * One `while` loop of solveWhiteCross: the one round a white slot of a
   * side table, the one round a white down edge of `edgeMoves`, or the
   * check of the top edges, which has no loop.
   */
  datatype Phase = WhiteSlot(entry: SolvingEntry, axis: Axis) | DownEdge(key: DownEdgeKey) | TopEdge

  /** One round of a white slot's `while`: both adjustments, read before either is made, then the slot's moves. */
  function SlotRound(c: Cube, entry: SolvingEntry, axis: Axis): seq<Move>
  {
    Moves(UAdjustment(axis, c)) + Moves(DAdjustment(axis, c)) + entry.moves
  }

  /** The half turn of the first side face whose top edge is not its colour, if any. */
  function TopEdgeMoves(c: Cube): seq<Move>
  {
    match FirstWrongTopEdge(c, CorrectEdges)
    case None => []
    case Some(face) => [MoveOf(face, Diagonal)]
  }

  /** What the `while` of a white slot plays from `c` when it may go round `budget` more times. */
  function SlotMoves(c: Cube, entry: SolvingEntry, axis: Axis, budget: nat): Result<seq<Move>, SolverError>
    decreases budget
  {
    if Look(c, entry.slot) != White then Ok([])
    else if budget == 0 then Err(OutOfFuel)
    else
      var round := SlotRound(c, entry, axis);
      Then(round, SlotMoves(Apply(c, round), entry, axis, budget - 1))
  }

  /** What the `while` of a down edge plays from `c` when it may go round `budget` more times. */
  function DownEdgeMoves(c: Cube, key: DownEdgeKey, budget: nat): Result<seq<Move>, SolverError>
    decreases budget
  {
    if Look(c, key) != White then Ok([])
    else if budget == 0 then Err(OutOfFuel)
    else
      match EdgeMoves(key, c.At(AdjacentFace(key), 2, 1))
      case None => Ok([])
      case Some(ms) => Then(ms, DownEdgeMoves(Apply(c, ms), key, budget - 1))
  }

  /** What a phase plays from `c` when its `while` may go round `fuel` times. */
  function PhaseMoves(c: Cube, p: Phase, fuel: nat): Result<seq<Move>, SolverError>
  {
    match p
    case WhiteSlot(entry, axis) => SlotMoves(c, entry, axis, fuel)
    case DownEdge(key) => DownEdgeMoves(c, key, fuel)
    case TopEdge => Ok(TopEdgeMoves(c))
  }

  /** The phases one after another from `c`, each `while` with `fuel` rounds. */
  function Run(c: Cube, ps: seq<Phase>, fuel: nat): Result<seq<Move>, SolverError>
    decreases |ps|, 0
  {
    if |ps| == 0 then Ok([]) else Bind(c, PhaseMoves(c, ps[0], fuel), ps[1..], fuel)
  }

  /** What `r` plays from `c`, followed by the phases `ps` from where it ends. */
  function Bind(c: Cube, r: Result<seq<Move>, SolverError>, ps: seq<Phase>, fuel: nat): Result<seq<Move>, SolverError>
    decreases |ps|, 1
  {
    match r
    case Err(e) => Err(e)
    case Ok(ms) => Then(ms, Run(Apply(c, ms), ps, fuel))
  }

  /** Moves played before `r` can be played before the phases that follow it as well. */
  lemma BindThen(c: Cube, ms: seq<Move>, r: Result<seq<Move>, SolverError>, ps: seq<Phase>, fuel: nat)
    ensures Bind(c, Then(ms, r), ps, fuel) == Then(ms, Bind(Apply(c, ms), r, ps, fuel))
  {
    if r.Ok? {
      Played(c, ms, r.value);
      ThenThen(ms, r.value, Run(Apply(c, ms + r.value), ps, fuel));
    }
  }

  /** Running `a + b` is running `a` and then `b` from where `a` ended. */
  lemma {:induction false} RunAppend(c: Cube, a: seq<Phase>, b: seq<Phase>, fuel: nat)
    ensures Run(c, a + b, fuel) == Bind(c, Run(c, a, fuel), b, fuel)
    decreases |a|, 0
  {
    if |a| == 0 {
      assert a + b == b;
      MoveEngine.ApplyNothing(c);
      ThenNothing(Run(c, b, fuel));
    } else {
      assert (a + b)[0] == a[0] && (a + b)[1..] == a[1..] + b;
      BindAppend(c, PhaseMoves(c, a[0], fuel), a[1..], b, fuel);
    }
  }

  /** Binding `a + b` after `r` is binding `a` and then `b`. */
  lemma {:induction false} BindAppend(c: Cube, r: Result<seq<Move>, SolverError>, a: seq<Phase>, b: seq<Phase>, fuel: nat)
    ensures Bind(c, r, a + b, fuel) == Bind(c, Bind(c, r, a, fuel), b, fuel)
    decreases |a|, 1
  {
    if r.Ok? {
      var c1 := Apply(c, r.value);
      RunAppend(c1, a, b, fuel);
      BindThen(c, r.value, Run(c1, a, fuel), b, fuel);
    }
  }

  /** A `while` that is entered: the first of the phases, the rest after it. */
  lemma PhaseStart(c: Cube, p: Phase, rest: seq<Phase>, fuel: nat)
    ensures Run(c, [p] + rest, fuel) == Bind(c, PhaseMoves(c, p, fuel), rest, fuel)
  {
    assert ([p] + rest)[0] == p && ([p] + rest)[1..] == rest;
  }

  /** Moves `r` played from `c`, when `r` plays nothing, leave the phases after it from `c`. */
  lemma BindNothing(c: Cube, r: Result<seq<Move>, SolverError>, rest: seq<Phase>, fuel: nat)
    requires r == Ok([])
    ensures Bind(c, r, rest, fuel) == Run(c, rest, fuel)
  {
    MoveEngine.ApplyNothing(c);
    ThenNothing(Run(c, rest, fuel));
  }

  /** A white slot's `while` ends only when the slot no longer shows white. */
  lemma {:induction false} SlotStops(c: Cube, entry: SolvingEntry, axis: Axis, budget: nat)
    requires SlotMoves(c, entry, axis, budget).Ok?
    ensures Look(Apply(c, SlotMoves(c, entry, axis, budget).value), entry.slot) != White
    decreases budget
  {
    if Look(c, entry.slot) == White {
      var round := SlotRound(c, entry, axis);
      SlotStops(Apply(c, round), entry, axis, budget - 1);
      Played(c, round, SlotMoves(Apply(c, round), entry, axis, budget - 1).value);
    } else {
      MoveEngine.ApplyNothing(c);
    }
  }

  /** A down edge's `while` ends only when the edge no longer shows white or the table has no moves for the colour beside it. */
  lemma {:induction false} DownEdgeStops(c: Cube, key: DownEdgeKey, budget: nat)
    requires DownEdgeMoves(c, key, budget).Ok?
    ensures var after := Apply(c, DownEdgeMoves(c, key, budget).value);
      Look(after, key) != White || EdgeMoves(key, after.At(AdjacentFace(key), 2, 1)).None?
    decreases budget
  {
    if Look(c, key) == White && EdgeMoves(key, c.At(AdjacentFace(key), 2, 1)).Some? {
      var round := EdgeMoves(key, c.At(AdjacentFace(key), 2, 1)).value;
      DownEdgeStops(Apply(c, round), key, budget - 1);
      Played(c, round, DownEdgeMoves(Apply(c, round), key, budget - 1).value);
    } else {
      MoveEngine.ApplyNothing(c);
    }
  }

  /** The `while` loops of one side table, slot by slot. */
  function SlotPhases(entries: seq<SolvingEntry>, axis: Axis): seq<Phase>
  {
    if |entries| == 0 then [] else [WhiteSlot(entries[0], axis)] + SlotPhases(entries[1..], axis)
  }

  /** The `while` loops of `edgeMoves`, from its `i`-th key on. */
  function DownEdgePhases(i: nat): seq<Phase>
    decreases |EdgeMoveKeys| - i
  {
    if i >= |EdgeMoveKeys| then [] else [DownEdge(EdgeMoveKeys[i])] + DownEdgePhases(i + 1)
  }

  /** The four side tables of solveWhiteCross, each with the adjustment helpers it uses. */
  const SideTables: seq<(seq<SolvingEntry>, Axis)> :=
    [(WhiteEdgesF, FrontBack), (WhiteEdgesR, RightLeft), (WhiteEdgesB, FrontBack), (WhiteEdgesL, RightLeft)]

  /** The `while` loops of the side tables `tables`, table by table. */
  function SidePhases(tables: seq<(seq<SolvingEntry>, Axis)>): seq<Phase>
  {
    if |tables| == 0 then [] else SlotPhases(tables[0].0, tables[0].1) + SidePhases(tables[1..])
  }

  /** The side tables from the `t`-th on: that table's slots, then the tables after it. */
  lemma SidesStep(tables: seq<(seq<SolvingEntry>, Axis)>, t: nat, later: seq<Phase>)
    requires t < |tables|
    ensures SidePhases(tables[t..]) + later == SlotPhases(tables[t].0, tables[t].1) + (SidePhases(tables[t + 1..]) + later)
  {
    assert tables[t..][1..] == tables[t + 1..];
  }

  /** Regrouping three phase lists. */
  lemma Regroup(a: seq<Phase>, b: seq<Phase>, c: seq<Phase>)
    ensures (a + b) + c == a + (b + c)
  {
  }

  /** No slot of a table shows white: its loops play nothing. */
  lemma {:induction false} SlotsIdle(c: Cube, entries: seq<SolvingEntry>, axis: Axis, fuel: nat)
    requires NoWhiteIn(c, entries)
    ensures Run(c, SlotPhases(entries, axis), fuel) == Ok([])
    decreases |entries|
  {
    if |entries| > 0 {
      var rest := SlotPhases(entries[1..], axis);
      assert forall i :: 0 <= i < |entries| - 1 ==> entries[1..][i] == entries[i + 1];
      SlotsIdle(c, entries[1..], axis, fuel);
      PhaseStart(c, WhiteSlot(entries[0], axis), rest, fuel);
      BindNothing(c, SlotMoves(c, entries[0], axis, fuel), rest, fuel);
    }
  }

  /** No down edge from the `i`-th key on shows white: their loops play nothing. */
  lemma {:induction false} DownEdgesIdle(c: Cube, i: nat, fuel: nat)
    requires forall j :: i <= j < |EdgeMoveKeys| ==> Look(c, EdgeMoveKeys[j]) != White
    ensures Run(c, DownEdgePhases(i), fuel) == Ok([])
    decreases |EdgeMoveKeys| - i
  {
    if i < |EdgeMoveKeys| {
      var key: DownEdgeKey := EdgeMoveKeys[i];
      DownEdgesIdle(c, i + 1, fuel);
      PhaseStart(c, DownEdge(key), DownEdgePhases(i + 1), fuel);
      BindNothing(c, DownEdgeMoves(c, key, fuel), DownEdgePhases(i + 1), fuel);
    }
  }

  /** No slot of any of the tables shows white: their loops play nothing. */
  lemma {:induction false} SidesIdle(c: Cube, tables: seq<(seq<SolvingEntry>, Axis)>, fuel: nat)
    requires forall t :: 0 <= t < |tables| ==> NoWhiteIn(c, tables[t].0)
    ensures Run(c, SidePhases(tables), fuel) == Ok([])
    decreases |tables|
  {
    if |tables| > 0 {
      var slots := SlotPhases(tables[0].0, tables[0].1);
      assert forall t :: 0 <= t < |tables| - 1 ==> tables[1..][t] == tables[t + 1];
      SidesIdle(c, tables[1..], fuel);
      SlotsIdle(c, tables[0].0, tables[0].1, fuel);
      RunAppend(c, slots, SidePhases(tables[1..]), fuel);
      BindNothing(c, Run(c, slots, fuel), SidePhases(tables[1..]), fuel);
    }
  }

  /** One pass of the second `repeat` loop: the `edgeMoves` loops, then the top-edge check. */
  function DownPass(): seq<Phase>
  {
    DownEdgePhases(0) + [TopEdge]
  }

  /** solveWhiteCross's loops in the order they run: the side tables twice, then the down pass twice. */
  function WhiteCrossPhases(tables: seq<(seq<SolvingEntry>, Axis)>): seq<Phase>
  {
    SidePhases(tables) + (SidePhases(tables) + (DownPass() + DownPass()))
  }

  /** The moves solveWhiteCross plays when each `while` may go round `fuel` times. */
  function WhiteCrossMoves(c: Cube, fuel: nat): Result<seq<Move>, SolverError>
  {
    Run(c, WhiteCrossPhases(SideTables), fuel)
  }

  /** A pass of the down edges and the top edges that finds nothing to do plays nothing. */
  lemma DownPassIdle(c: Cube, fuel: nat)
    requires NoWhiteDownEdge(c) && FirstWrongTopEdge(c, CorrectEdges).None?
    ensures Run(c, DownPass(), fuel) == Ok([])
  {
    DownEdgesIdle(c, 0, fuel);
    RunAppend(c, DownEdgePhases(0), [TopEdge], fuel);
    BindNothing(c, Run(c, DownEdgePhases(0), fuel), [TopEdge], fuel);
    PhaseStart(c, TopEdge, [], fuel);
    assert [TopEdge] + [] == [TopEdge];
    BindNothing(c, PhaseMoves(c, TopEdge, fuel), [], fuel);
  }

  /** With nothing for solveWhiteCross to do, its moves are none at all. */
  lemma WhiteCrossIdle(c: Cube, fuel: nat)
    requires WhiteCrossDone(c)
    ensures WhiteCrossMoves(c, fuel) == Ok([])
  {
    assert forall t :: 0 <= t < |SideTables| ==> NoWhiteIn(c, SideTables[t].0);
    SidesIdle(c, SideTables, fuel);
    DownPassIdle(c, fuel);
    TwiceTwiceIdle(c, SidePhases(SideTables), DownPass(), fuel);
  }

  /** Phases that play nothing, run twice and then others that play nothing run twice, play nothing. */
  lemma TwiceTwiceIdle(c: Cube, sides: seq<Phase>, down: seq<Phase>, fuel: nat)
    requires Run(c, sides, fuel) == Ok([]) && Run(c, down, fuel) == Ok([])
    ensures Run(c, sides + (sides + (down + down)), fuel) == Ok([])
  {
    RunAppend(c, down, down, fuel);
    BindNothing(c, Run(c, down, fuel), down, fuel);
    RunAppend(c, sides, down + down, fuel);
    BindNothing(c, Run(c, sides, fuel), down + down, fuel);
    RunAppend(c, sides, sides + (down + down), fuel);
    BindNothing(c, Run(c, sides, fuel), sides + (down + down), fuel);
  }

  /** After `done`, the phases `a` and then `b`: an error in `a` is the error of the whole; otherwise `b` follows on from where `a` ends. */
  lemma RunNext(target: Result<seq<Move>, SolverError>, done: seq<Move>, c: Cube, a: seq<Phase>, b: seq<Phase>, fuel: nat)
    requires target == Then(done, Run(c, a + b, fuel))
    ensures Run(c, a, fuel).Err? ==> target.Err?
    ensures Run(c, a, fuel).Ok? ==>
      target == Then(done + Run(c, a, fuel).value, Run(Apply(c, Run(c, a, fuel).value), b, fuel))
  {
    RunAppend(c, a, b, fuel);
    if Run(c, a, fuel).Ok? {
      var ms := Run(c, a, fuel).value;
      ThenThen(done, ms, Run(Apply(c, ms), b, fuel));
    }
  }

  /** After `done`, the phase `p` and then `rest`, as RunNext for a single phase. */
  lemma PhaseNext(target: Result<seq<Move>, SolverError>, done: seq<Move>, c: Cube, p: Phase, rest: seq<Phase>, fuel: nat)
    requires target == Then(done, Run(c, [p] + rest, fuel))
    ensures PhaseMoves(c, p, fuel).Err? ==> target.Err?
    ensures PhaseMoves(c, p, fuel).Ok? ==>
      target == Then(done + PhaseMoves(c, p, fuel).value, Run(Apply(c, PhaseMoves(c, p, fuel).value), rest, fuel))
  {
    PhaseStart(c, p, rest, fuel);
    if PhaseMoves(c, p, fuel).Ok? {
      var ms := PhaseMoves(c, p, fuel).value;
      ThenThen(done, ms, Run(Apply(c, ms), rest, fuel));
    }
  }

  /** A white slot's `while` on a white slot with no budget left runs out of fuel. */
  lemma SlotNoFuel(slot: (Cube, nat) -> Result<seq<Move>, SolverError>, c: Cube, entry: SolvingEntry, axis: Axis)
    requires forall c, b {:trigger SlotMoves(c, entry, axis, b)} :: slot(c, b) == SlotMoves(c, entry, axis, b)
    requires Look(c, entry.slot) == White
    ensures slot(c, 0) == Err(OutOfFuel)
  {
    assert SlotMoves(c, entry, axis, 0) == Err(OutOfFuel);
  }

  /** A white slot's `while` on a slot that is not white plays nothing. */
  lemma SlotDone(slot: (Cube, nat) -> Result<seq<Move>, SolverError>, c: Cube, entry: SolvingEntry, axis: Axis, budget: nat)
    requires forall c, b {:trigger SlotMoves(c, entry, axis, b)} :: slot(c, b) == SlotMoves(c, entry, axis, b)
    requires Look(c, entry.slot) != White
    ensures slot(c, budget) == Ok([])
  {
    assert SlotMoves(c, entry, axis, budget) == Ok([]);
  }

  /** One round of a white slot's `while` after `movesResult`: the moves grow by the slot's round. */
  method PlaySlotRound(ghost slot: (Cube, nat) -> Result<seq<Move>, SolverError>,
                       start: Cube, cube: Cube, movesResult: seq<Move>, entry: SolvingEntry, axis: Axis, budget: nat,
                       ghost target: Result<seq<Move>, SolverError>)
    returns (next: Cube, moves: seq<Move>)
    requires forall c, b {:trigger SlotMoves(c, entry, axis, b)} :: slot(c, b) == SlotMoves(c, entry, axis, b)
    requires cube == Apply(start, movesResult) && Look(cube, entry.slot) == White && budget > 0
    requires target == Then(movesResult, slot(cube, budget))
    ensures next == Apply(start, moves) && target == Then(moves, slot(next, budget - 1))
  {
    var uAdjustment := UAdjustment(axis, cube);
    var dAdjustment := DAdjustment(axis, cube);
    var round := Moves(uAdjustment) + Moves(dAdjustment) + entry.moves;
    assert slot(cube, budget) == SlotMoves(cube, entry, axis, budget);
    assert slot(Apply(cube, round), budget - 1) == SlotMoves(Apply(cube, round), entry, axis, budget - 1);
    ThenThen(movesResult, round, SlotMoves(Apply(cube, round), entry, axis, budget - 1));
    Played(start, movesResult, round);
    return Apply(cube, round), movesResult + round;
  }

  /**
   * The `while` of one slot of a side table, for `slot` the slot's
   * SlotMoves: while it shows white, make the U and D adjustments the
   * helpers ask for (both read before either is made), then play the
   * slot's moves.
   */
  method PlaySlotLoop(ghost slot: (Cube, nat) -> Result<seq<Move>, SolverError>,
                      start: Cube, entry: SolvingEntry, axis: Axis, fuel: nat) returns (r: Result<Stage, SolverError>)
    requires forall c, b {:trigger SlotMoves(c, entry, axis, b)} :: slot(c, b) == SlotMoves(c, entry, axis, b)
    ensures r.Err? ==> r.error == OutOfFuel
    ensures r.Ok? <==> slot(start, fuel).Ok?
    ensures r.Ok? ==> r.value.moves == slot(start, fuel).value
    ensures r.Ok? ==> r.value.cube == Apply(start, r.value.moves)
  {
    var cube := start;
    var movesResult: seq<Move> := [];
    ghost var target := slot(start, fuel);
    ThenNothing(target);
    var budget := fuel;
    while Look(cube, entry.slot) == White
      invariant cube == Apply(start, movesResult)
      invariant target == Then(movesResult, slot(cube, budget))
      decreases budget
    {
      if budget == 0 {
        SlotNoFuel(slot, cube, entry, axis);
        return Err(OutOfFuel);
      }
      cube, movesResult := PlaySlotRound(slot, start, cube, movesResult, entry, axis, budget, target);
      budget := budget - 1;
    }
    SlotDone(slot, cube, entry, axis, budget);
    assert movesResult + [] == movesResult;
    return Ok(Stage(cube, movesResult));
  }

  /** The `while` of one slot of a side table: the moves SlotMoves gives. */
  method PlaySlot(start: Cube, entry: SolvingEntry, axis: Axis, fuel: nat) returns (r: Result<Stage, SolverError>)
    ensures r.Err? ==> r.error == OutOfFuel
    ensures r.Ok? <==> SlotMoves(start, entry, axis, fuel).Ok?
    ensures r.Ok? ==> r.value.moves == SlotMoves(start, entry, axis, fuel).value
    ensures r.Ok? ==> r.value.cube == Apply(start, r.value.moves)
  {
    r := PlaySlotLoop((c: Cube, b: nat) => SlotMoves(c, entry, axis, b), start, entry, axis, fuel);
  }

  /** One `for ... of whiteEdgesX` block: the `while` of each slot of the table in turn. */
  method PlayWhiteEdges(start: Cube, entries: seq<SolvingEntry>, axis: Axis, fuel: nat) returns (r: Result<Stage, SolverError>)
    ensures r.Err? ==> r.error == OutOfFuel
    ensures r.Ok? <==> Run(start, SlotPhases(entries, axis), fuel).Ok?
    ensures r.Ok? ==> r.value.moves == Run(start, SlotPhases(entries, axis), fuel).value
    ensures r.Ok? ==> r.value.cube == Apply(start, r.value.moves)
    ensures NoWhiteIn(start, entries) ==> r == Ok(Stage(start, []))
  {
    var cube := start;
    var movesResult: seq<Move> := [];
    ghost var target := Run(start, SlotPhases(entries, axis), fuel);
    ThenNothing(target);
    if NoWhiteIn(start, entries) {
      SlotsIdle(start, entries, axis, fuel);
      MoveEngine.ApplyNothing(start);
    }
    assert entries[0..] == entries;
    for i := 0 to |entries|
      invariant cube == Apply(start, movesResult)
      invariant target == Then(movesResult, Run(cube, SlotPhases(entries[i..], axis), fuel))
    {
      assert entries[i..][1..] == entries[i + 1..];
      PhaseNext(target, movesResult, cube, WhiteSlot(entries[i], axis), SlotPhases(entries[i + 1..], axis), fuel);
      var s := PlaySlot(cube, entries[i], axis, fuel);
      if s.Err? {
        return Err(s.error);
      }
      Chain(start, movesResult, cube, s.value);
      movesResult := movesResult + s.value.moves;
      cube := s.value.cube;
    }
    assert movesResult + [] == movesResult;
    return Ok(Stage(cube, movesResult));
  }

  /**
   * The `while` of one key of `edgeMoves`: while the down edge shows
   * white, send it up with the moves its side colour asks for; stop
   * looking at it when the table has none.
   */
  method PlayDownEdge(start: Cube, key: DownEdgeKey, fuel: nat) returns (r: Result<Stage, SolverError>)
    ensures r.Err? ==> r.error == OutOfFuel
    ensures r.Ok? <==> DownEdgeMoves(start, key, fuel).Ok?
    ensures r.Ok? ==> r.value.moves == DownEdgeMoves(start, key, fuel).value
    ensures r.Ok? ==> r.value.cube == Apply(start, r.value.moves)
  {
    var cube := start;
    var movesResult: seq<Move> := [];
    ghost var target := DownEdgeMoves(start, key, fuel);
    ThenNothing(target);
    var budget := fuel;
    while Look(cube, key) == White
      invariant cube == Apply(start, movesResult)
      invariant target == Then(movesResult, DownEdgeMoves(cube, key, budget))
      decreases budget
    {
      if budget == 0 {
        return Err(OutOfFuel);
      }
      var adjacentFace := AdjacentFace(key);
      var color := cube.At(adjacentFace, 2, 1);
      var moves := EdgeMoves(key, color);
      if moves.None? {
        break;
      }
      ThenThen(movesResult, moves.value, DownEdgeMoves(Apply(cube, moves.value), key, budget - 1));
      budget := budget - 1;
      Played(start, movesResult, moves.value);
      movesResult := movesResult + moves.value;
      cube := Apply(cube, moves.value);
    }
    assert movesResult + [] == movesResult;
    return Ok(Stage(cube, movesResult));
  }

  /** The `for (const key in edgeMoves)` block: the `while` of each down edge in turn. */
  method PlayEdgeMoves(start: Cube, fuel: nat) returns (r: Result<Stage, SolverError>)
    ensures r.Err? ==> r.error == OutOfFuel
    ensures r.Ok? <==> Run(start, DownEdgePhases(0), fuel).Ok?
    ensures r.Ok? ==> r.value.moves == Run(start, DownEdgePhases(0), fuel).value
    ensures r.Ok? ==> r.value.cube == Apply(start, r.value.moves)
    ensures NoWhiteDownEdge(start) ==> r == Ok(Stage(start, []))
  {
    var cube := start;
    var movesResult: seq<Move> := [];
    ghost var target := Run(start, DownEdgePhases(0), fuel);
    ThenNothing(target);
    if NoWhiteDownEdge(start) {
      DownEdgesIdle(start, 0, fuel);
      MoveEngine.ApplyNothing(start);
    }
    for i := 0 to |EdgeMoveKeys|
      invariant cube == Apply(start, movesResult)
      invariant target == Then(movesResult, Run(cube, DownEdgePhases(i), fuel))
    {
      var key: DownEdgeKey := EdgeMoveKeys[i];
      PhaseNext(target, movesResult, cube, DownEdge(key), DownEdgePhases(i + 1), fuel);
      var s := PlayDownEdge(cube, key, fuel);
      if s.Err? {
        return Err(s.error);
      }
      Chain(start, movesResult, cube, s.value);
      movesResult := movesResult + s.value.moves;
      cube := s.value.cube;
    }
    assert movesResult + [] == movesResult;
    return Ok(Stage(cube, movesResult));
  }

  /** The first side face, in the order F, R, B, L, whose top edge is not its colour. */
  function FirstWrongTopEdge(c: Cube, table: seq<(FaceName, Color)>): (face: Option<FaceName>)
    ensures face.Some? ==> exists i :: 0 <= i < |table| && table[i].0 == face.value && c.At(table[i].0, 0, 1) != table[i].1
    ensures face.None? <==> forall i :: 0 <= i < |table| ==> c.At(table[i].0, 0, 1) == table[i].1
  {
    if |table| == 0 then None
    else if c.At(table[0].0, 0, 1) != table[0].1 then Some(table[0].0)
    else
      var rest := FirstWrongTopEdge(c, table[1..]);
      assert forall i :: 0 < i < |table| ==> table[1..][i - 1] == table[i];
      rest
  }

  /** The `for (const face in correctEdges)` block: a half turn of the first wrong face, and stop. */
  method FixTopEdge(start: Cube) returns (s: Stage)
    ensures s.cube == Apply(start, s.moves)
    ensures s.moves == TopEdgeMoves(start)
  {
    for i := 0 to |CorrectEdges|
      invariant FirstWrongTopEdge(start, CorrectEdges) == FirstWrongTopEdge(start, CorrectEdges[i..])
    {
      var (face, color) := CorrectEdges[i];
      if start.At(face, 0, 1) != color {
        var move := MoveOf(face, Diagonal);
        MoveEngine.ApplyOne(start, move);
        return Stage(Turn(start, move), [move]);
      }
      assert CorrectEdges[i..][1..] == CorrectEdges[i + 1..];
    }
    MoveEngine.ApplyNothing(start);
    return Stage(start, []);
  }

  /** Chaining two sub-steps keeps the pairing with the stage's input. */
  lemma Chain(start: Cube, done: seq<Move>, cube: Cube, s: Stage)
    requires cube == Apply(start, done)
    requires s.cube == Apply(cube, s.moves)
    ensures s.cube == Apply(start, done + s.moves)
  {
    Played(start, done, s.moves);
  }

  /** Nothing for solveWhiteCross to do: no white where the tables look, and the top edges right. */
  predicate WhiteCrossDone(c: Cube)
  {
    NoWhiteIn(c, WhiteEdgesF) && NoWhiteIn(c, WhiteEdgesR) &&
    NoWhiteIn(c, WhiteEdgesB) && NoWhiteIn(c, WhiteEdgesL) &&
    NoWhiteDownEdge(c) && FirstWrongTopEdge(c, CorrectEdges).None?
  }

  /**
   * The `for` loop over the side tables, after `movesResult`: each table's
   * edges in turn, then the phases `later`.
   */
  method PlaySideTables(gotCube: Cube, cube: Cube, movesResult: seq<Move>, tables: seq<(seq<SolvingEntry>, Axis)>,
                        ghost later: seq<Phase>, fuel: nat, ghost target: Result<seq<Move>, SolverError>)
    returns (r: Result<Stage, SolverError>)
    requires cube == Apply(gotCube, movesResult)
    requires target == Then(movesResult, Run(cube, SidePhases(tables) + later, fuel))
    ensures r.Err? ==> r.error == OutOfFuel
    ensures r.Err? ==> target.Err?
    ensures r.Ok? ==> r.value.cube == Apply(gotCube, r.value.moves) && target == Then(r.value.moves, Run(r.value.cube, later, fuel))
  {
    var cube := cube;
    var movesResult := movesResult;
    assert tables[0..] == tables;
    for t := 0 to |tables|
      invariant cube == Apply(gotCube, movesResult)
      invariant target == Then(movesResult, Run(cube, SidePhases(tables[t..]) + later, fuel))
    {
      ghost var after := SidePhases(tables[t + 1..]) + later;
      SidesStep(tables, t, later);
      RunNext(target, movesResult, cube, SlotPhases(tables[t].0, tables[t].1), after, fuel);
      var s := PlayWhiteEdges(cube, tables[t].0, tables[t].1, fuel);
      if s.Err? {
        return Err(s.error);
      }
      Chain(gotCube, movesResult, cube, s.value);
      movesResult := movesResult + s.value.moves;
      cube := s.value.cube;
    }
    assert tables[|tables|..] == [];
    assert SidePhases(tables[|tables|..]) + later == later;
    return Ok(Stage(cube, movesResult));
  }

  /**
   * One round of the `for` loop over the down edges, after `movesResult`:
   * the `while` of each down edge, the check of the top edges, then the
   * phases `later`.
   */
  method PlayDownPass(gotCube: Cube, cube: Cube, movesResult: seq<Move>, ghost later: seq<Phase>, fuel: nat,
                      ghost target: Result<seq<Move>, SolverError>)
    returns (r: Result<Stage, SolverError>)
    requires cube == Apply(gotCube, movesResult)
    requires target == Then(movesResult, Run(cube, DownPass() + later, fuel))
    ensures r.Err? ==> r.error == OutOfFuel
    ensures r.Err? ==> target.Err?
    ensures r.Ok? ==> r.value.cube == Apply(gotCube, r.value.moves) && target == Then(r.value.moves, Run(r.value.cube, later, fuel))
  {
    var cube := cube;
    var movesResult := movesResult;
    Regroup(DownEdgePhases(0), [TopEdge], later);
    RunNext(target, movesResult, cube, DownEdgePhases(0), [TopEdge] + later, fuel);
    var s := PlayEdgeMoves(cube, fuel);
    if s.Err? {
      return Err(s.error);
    }
    Chain(gotCube, movesResult, cube, s.value);
    movesResult := movesResult + s.value.moves;
    cube := s.value.cube;
    PhaseNext(target, movesResult, cube, TopEdge, later, fuel);
    var fix := FixTopEdge(cube);
    Chain(gotCube, movesResult, cube, fix);
    return Ok(Stage(fix.cube, movesResult + fix.moves));
  }

  /** The first `repeat` loop of solveWhiteCross: the side tables twice, then the phases `later`. */
  method PlaySidesTwice(gotCube: Cube, tables: seq<(seq<SolvingEntry>, Axis)>, ghost later: seq<Phase>, fuel: nat,
                        ghost target: Result<seq<Move>, SolverError>)
    returns (r: Result<Stage, SolverError>)
    requires target == Run(gotCube, SidePhases(tables) + (SidePhases(tables) + later), fuel)
    ensures r.Err? ==> r.error == OutOfFuel
    ensures r.Err? ==> target.Err?
    ensures r.Ok? ==> r.value.cube == Apply(gotCube, r.value.moves) && target == Then(r.value.moves, Run(r.value.cube, later, fuel))
  {
    var cube := gotCube;
    var movesResult: seq<Move> := [];
    ghost var sides := SidePhases(tables);
    ThenNothing(target);
    MoveEngine.ApplyNothing(gotCube);
    for repeat := 0 to 2
      invariant cube == Apply(gotCube, movesResult)
      invariant target == Then(movesResult, Run(cube, if repeat == 0 then sides + (sides + later) else if repeat == 1 then sides + later else later, fuel))
    {
      ghost var rest := if repeat == 0 then sides + later else later;
      var s := PlaySideTables(gotCube, cube, movesResult, tables, rest, fuel, target);
      if s.Err? {
        return Err(s.error);
      }
      movesResult := s.value.moves;
      cube := s.value.cube;
    }
    return Ok(Stage(cube, movesResult));
  }

  /** The second `repeat` loop of solveWhiteCross, after `movesResult`: the down pass twice, and nothing after it. */
  method PlayDownTwice(gotCube: Cube, cube: Cube, movesResult: seq<Move>, fuel: nat, ghost target: Result<seq<Move>, SolverError>)
    returns (r: Result<Stage, SolverError>)
    requires cube == Apply(gotCube, movesResult)
    requires target == Then(movesResult, Run(cube, DownPass() + DownPass(), fuel))
    ensures r.Err? ==> r.error == OutOfFuel
    ensures r.Err? ==> target.Err?
    ensures r.Ok? ==> r.value.cube == Apply(gotCube, r.value.moves) && target == Ok(r.value.moves)
  {
    var cube := cube;
    var movesResult := movesResult;
    ghost var down := DownPass();
    for repeat := 0 to 2
      invariant cube == Apply(gotCube, movesResult)
      invariant target == Then(movesResult, Run(cube, if repeat == 0 then down + down else if repeat == 1 then down else [], fuel))
    {
      ghost var later: seq<Phase> := if repeat == 0 then down else [];
      assert repeat == 1 ==> down == down + later;
      var s := PlayDownPass(gotCube, cube, movesResult, later, fuel, target);
      if s.Err? {
        return Err(s.error);
      }
      movesResult := s.value.moves;
      cube := s.value.cube;
    }
    assert movesResult + [] == movesResult;
    return Ok(Stage(cube, movesResult));
  }

  /**
   * The loops of solveWhiteCross over the side tables `tables`: twice
   * over the tables, then twice: bring white down edges up, then fix the
   * first wrong top edge.
   */
  method PlayWhiteCross(gotCube: Cube, tables: seq<(seq<SolvingEntry>, Axis)>, fuel: nat) returns (r: Result<Stage, SolverError>)
    ensures r.Err? ==> r.error == OutOfFuel
    ensures r.Ok? <==> Run(gotCube, WhiteCrossPhases(tables), fuel).Ok?
    ensures r.Ok? ==> r.value.moves == Run(gotCube, WhiteCrossPhases(tables), fuel).value
    ensures r.Ok? ==> r.value.cube == Apply(gotCube, r.value.moves)
  {
    ghost var target := Run(gotCube, WhiteCrossPhases(tables), fuel);
    var s := PlaySidesTwice(gotCube, tables, DownPass() + DownPass(), fuel, target);
    if s.Err? {
      return Err(s.error);
    }
    r := PlayDownTwice(gotCube, s.value.cube, s.value.moves, fuel, target);
  }

  /** solveWhiteCross: its loops over the four side tables F, R, B, L. */
  method SolveWhiteCross(gotCube: Cube, fuel: nat) returns (r: Result<Stage, SolverError>)
    ensures r.Err? ==> r.error == OutOfFuel
    ensures r.Ok? <==> WhiteCrossMoves(gotCube, fuel).Ok?
    ensures r.Ok? ==> r.value.moves == WhiteCrossMoves(gotCube, fuel).value
    ensures r.Ok? ==> r.value.cube == Apply(gotCube, r.value.moves)
    ensures WhiteCrossDone(gotCube) ==> r == Ok(Stage(gotCube, []))
  {
    if WhiteCrossDone(gotCube) {
      WhiteCrossIdle(gotCube, fuel);
      MoveEngine.ApplyNothing(gotCube);
    }
    r := PlayWhiteCross(gotCube, SideTables, fuel);
  }

  // ---------------------------------------------------------------------
  // Stage 2: solveWhiteLayer

  /**
   * A `while (true)` that plays `pass` from where it stands until a pass
   * plays nothing, going round at most `budget` times.
   */
  function Repeat(pass: Cube -> seq<Move>, c: Cube, budget: nat): Result<seq<Move>, SolverError>
    decreases budget
  {
    if budget == 0 then Err(OutOfFuel)
    else if pass(c) == [] then Ok([])
    else Then(pass(c), Repeat(pass, Apply(c, pass(c)), budget - 1))
  }

  /** The loop stops only where a pass plays nothing. */
  lemma {:induction false} RepeatSettles(pass: Cube -> seq<Move>, c: Cube, budget: nat)
    requires Repeat(pass, c, budget).Ok?
    ensures pass(Apply(c, Repeat(pass, c, budget).value)) == []
    decreases budget
  {
    if pass(c) == [] {
      MoveEngine.ApplyNothing(c);
    } else {
      RepeatSettles(pass, Apply(c, pass(c)), budget - 1);
      Played(c, pass(c), Repeat(pass, Apply(c, pass(c)), budget - 1).value);
    }
  }

  /** After `done`, one more round of the loop, which plays `ms`. */
  lemma RepeatStep(pass: Cube -> seq<Move>, target: Result<seq<Move>, SolverError>, done: seq<Move>, c: Cube, budget: nat, ms: seq<Move>)
    requires target == Then(done, Repeat(pass, c, budget)) && budget > 0 && ms == pass(c)
    ensures ms == [] ==> target == Ok(done)
    ensures ms != [] ==> target == Then(done + ms, Repeat(pass, Apply(c, ms), budget - 1))
  {
    if ms == [] {
      assert done + [] == done;
    } else {
      ThenThen(done, ms, Repeat(pass, Apply(c, ms), budget - 1));
    }
  }

  /** The moves `place` chooses for the first of `xs` that needs any, or none: a `for` loop left at the first hit. */
  function FirstNonEmpty<T>(place: T -> seq<Move>, xs: seq<T>): (ms: seq<Move>)
    ensures ms == [] <==> forall i :: 0 <= i < |xs| ==> place(xs[i]) == []
    ensures ms != [] ==> exists i :: 0 <= i < |xs| && ms == place(xs[i]) &&
                                     forall j :: 0 <= j < i ==> place(xs[j]) == []
  {
    if |xs| == 0 then []
    else if place(xs[0]) != [] then place(xs[0])
    else
      var ms := FirstNonEmpty(place, xs[1..]);
      assert forall i :: 0 < i < |xs| ==> xs[1..][i - 1] == xs[i];
      ms
  }

  /** Nothing for solveWhiteLayer to do: no white below and a finished top layer. */
  predicate WhiteLayerDone(c: Cube)
  {
    WhiteCornersIn(c, CornerPositions) == [] && FirstFixOf(UpperLayerCorners(c)) == []
  }

  /**
   * The moves solveWhiteLayer plays for one corner: the D turn that brings it
   * under its slot, if any, then the insertion chosen by the colour now
   * at the slot; none when its colours have no entry.
   */
  function PlaceCornerMoves(c: Cube, corner: FoundCorner): seq<Move>
  {
    match CornerKeyOf(NormalizeCornerColors(corner.colors))
    case None => []
    case Some(key) =>
      var turn := Moves(CornerPositionMove(corner.position, key));
      var insertKey := CornerInsertSlot(key);
      turn + InsertCorner(insertKey, Look(Apply(c, turn), insertKey)).GetOr([])
  }

  /** The moves for the first of the corners that needs any, or none. */
  function FirstPlacement(c: Cube, corners: seq<FoundCorner>): (ms: seq<Move>)
    ensures ms == [] <==> forall i :: 0 <= i < |corners| ==> PlaceCornerMoves(c, corners[i]) == []
    ensures ms != [] ==> exists i :: 0 <= i < |corners| && ms == PlaceCornerMoves(c, corners[i]) &&
                                     forall j :: 0 <= j < i ==> PlaceCornerMoves(c, corners[j]) == []
  {
    FirstNonEmpty(corner => PlaceCornerMoves(c, corner), corners)
  }

  /** One pass of solveWhiteLayer's `while (true)`: what it plays from `c`. */
  function WhiteLayerPass(c: Cube): seq<Move>
  {
    var found := WhiteCornersIn(c, CornerPositions);
    if |found| == 0 then FirstFixOf(UpperLayerCorners(c)) else FirstPlacement(c, found)
  }

  /** The state solveWhiteLayer stops in: a pass finds nothing to play. */
  predicate WhiteLayerSettled(c: Cube)
  {
    var found := WhiteCornersIn(c, CornerPositions);
    (found == [] ==> FirstFixOf(UpperLayerCorners(c)) == []) &&
    forall i :: 0 <= i < |found| ==> PlaceCornerMoves(c, found[i]) == []
  }

  /** A pass finds nothing to play exactly in the state the loop stops in. */
  lemma WhiteLayerPassEmpty(c: Cube)
    ensures WhiteLayerPass(c) == [] <==> WhiteLayerSettled(c)
  {
    var found := WhiteCornersIn(c, CornerPositions);
    if |found| > 0 {
      assert WhiteLayerPass(c) == FirstPlacement(c, found);
    }
  }

  /** With nothing to do, solveWhiteLayer plays nothing, given one pass. */
  lemma WhiteLayerIdle(c: Cube, budget: nat)
    requires WhiteLayerDone(c) && budget > 0
    ensures Repeat(WhiteLayerPass, c, budget) == Ok([])
  {
  }

  /** The moves for one white corner, played step by step. */
  method PlaceCorner(start: Cube, corner: FoundCorner) returns (s: Stage)
    ensures s.cube == Apply(start, s.moves)
    ensures s.moves == PlaceCornerMoves(start, corner)
  {
    var cube := start;
    var moveSequence: seq<Move> := [];
    var colorKey := NormalizeCornerColors(corner.colors);
    var key := CornerKeyOf(colorKey);
    if key.Some? {
      var move := CornerPositionMove(corner.position, key.value);
      if move.Some? {
        PlayedOne(start, moveSequence, move.value);
        moveSequence := moveSequence + [move.value];
        cube := Turn(cube, move.value);
      }
      assert moveSequence == Moves(move);
      var insertKey := CornerInsertSlot(key.value);
      var insert := InsertCorner(insertKey, Look(cube, insertKey));
      if insert.Some? {
        Played(start, moveSequence, insert.value);
        moveSequence := moveSequence + insert.value;
        cube := Apply(cube, insert.value);
      } else {
        assert moveSequence + [] == moveSequence;
      }
    } else {
      MoveEngine.ApplyNothing(start);
    }
    return Stage(cube, moveSequence);
  }

  /** What the moves of solveWhiteLayer promise: where they stop, and none when there is nothing to do. */
  lemma WhiteLayerFacts(c: Cube, fuel: nat)
    ensures Repeat(WhiteLayerPass, c, fuel).Ok? ==> WhiteLayerSettled(Apply(c, Repeat(WhiteLayerPass, c, fuel).value))
    ensures (WhiteLayerDone(c) || LooksSolved(c)) && fuel > 0 ==> Repeat(WhiteLayerPass, c, fuel) == Ok([]) && Apply(c, []) == c
  {
    if LooksSolved(c) {
      SolvedWhiteLayerDone(c);
    }
    if WhiteLayerDone(c) && fuel > 0 {
      WhiteLayerIdle(c, fuel);
      MoveEngine.ApplyNothing(c);
    }
    if Repeat(WhiteLayerPass, c, fuel).Ok? {
      RepeatSettles(WhiteLayerPass, c, fuel);
      WhiteLayerPassEmpty(Apply(c, Repeat(WhiteLayerPass, c, fuel).value));
    }
  }

  /**
   * One pass of solveWhiteLayer's `while (true)`: with nothing found below, fix
   * the top of the layer; otherwise play the moves of the first white corner
   * that needs any.
   */
  method PlayWhiteLayerPass(start: Cube) returns (s: Stage, adjusted: bool)
    ensures s.cube == Apply(start, s.moves)
    ensures s.moves == WhiteLayerPass(start)
    ensures adjusted <==> s.moves != []
  {
    var cube := start;
    var movesResult: seq<Move> := [];
    var whiteCorners := FindWhiteCorners(cube);
    adjusted := false;
    if |whiteCorners| == 0 {
      var fixMoves := FixUpperLayer(cube);
      if |fixMoves| > 0 {
        movesResult := fixMoves;
        cube := Apply(cube, fixMoves);
        adjusted := true;
      } else {
        MoveEngine.ApplyNothing(cube);
      }
      return Stage(cube, movesResult), adjusted;
    }
    s, adjusted := PlaceFirstCorner(corner => PlaceCornerMoves(start, corner), start, whiteCorners);
  }

  /** placeCorner, seen through `place`, which is PlaceCornerMoves on `start`. */
  method PlaceCornerBy(ghost place: FoundCorner -> seq<Move>, start: Cube, corner: FoundCorner) returns (s: Stage)
    requires forall k {:trigger PlaceCornerMoves(start, k)} :: place(k) == PlaceCornerMoves(start, k)
    ensures s.cube == Apply(start, s.moves) && s.moves == place(corner)
  {
    s := PlaceCorner(start, corner);
  }

  /**
   * The `for` loop of a pass of solveWhiteLayer over the white corners
   * found: return after the first corner that plays any moves.
   */
  method PlaceFirstCorner(ghost place: FoundCorner -> seq<Move>, start: Cube, corners: seq<FoundCorner>)
    returns (s: Stage, adjusted: bool)
    requires forall k {:trigger PlaceCornerMoves(start, k)} :: place(k) == PlaceCornerMoves(start, k)
    ensures s.cube == Apply(start, s.moves)
    ensures s.moves == FirstNonEmpty(place, corners)
    ensures adjusted <==> s.moves != []
  {
    assert corners[0..] == corners;
    for i := 0 to |corners|
      invariant FirstNonEmpty(place, corners[i..]) == FirstNonEmpty(place, corners)
    {
      var placed := PlaceCornerBy(place, start, corners[i]);
      if |placed.moves| > 0 {
        return placed, true;
      }
      assert corners[i..][1..] == corners[i + 1..];
    }
    MoveEngine.ApplyNothing(start);
    return Stage(start, []), false;
  }

  /**
   * One round of solveWhiteLayer's `while (true)` after `movesResult`: either
   * the pass plays nothing and the moves are final, or the moves grow by the pass.
   * `pass` is WhiteLayerPass, which only the pass itself looks into.
   */
  method WhiteLayerRound(ghost pass: Cube -> seq<Move>, gotCube: Cube, cube: Cube, movesResult: seq<Move>, budget: nat, ghost target: Result<seq<Move>, SolverError>)
    returns (next: Cube, moves: seq<Move>, adjusted: bool)
    requires forall c {:trigger WhiteLayerPass(c)} :: pass(c) == WhiteLayerPass(c)
    requires cube == Apply(gotCube, movesResult) && budget > 0
    requires target == Then(movesResult, Repeat(pass, cube, budget))
    ensures !adjusted ==> target == Ok(movesResult)
    ensures adjusted ==> next == Apply(gotCube, moves) && target == Then(moves, Repeat(pass, next, budget - 1))
  {
    var s;
    s, adjusted := PlayWhiteLayerPass(cube);
    RepeatStep(pass, target, movesResult, cube, budget, s.moves);
    if adjusted {
      Chain(gotCube, movesResult, cube, s);
    }
    return s.cube, movesResult + s.moves, adjusted;
  }

  /** The `while (true)` of solveWhiteLayer: passes until one changes nothing. */
  method PlayWhiteLayer(ghost pass: Cube -> seq<Move>, gotCube: Cube, fuel: nat) returns (r: Result<Stage, SolverError>)
    requires forall c {:trigger WhiteLayerPass(c)} :: pass(c) == WhiteLayerPass(c)
    ensures r.Err? ==> r.error == OutOfFuel
    ensures r.Ok? <==> Repeat(pass, gotCube, fuel).Ok?
    ensures r.Ok? ==> r.value.moves == Repeat(pass, gotCube, fuel).value
    ensures r.Ok? ==> r.value.cube == Apply(gotCube, r.value.moves)
  {
    var cube := gotCube;
    var movesResult: seq<Move> := [];
    ghost var target := Repeat(pass, gotCube, fuel);
    ThenNothing(target);
    var budget := fuel;
    while true
      invariant cube == Apply(gotCube, movesResult)
      invariant target == Then(movesResult, Repeat(pass, cube, budget))
      decreases budget
    {
      if budget == 0 {
        return Err(OutOfFuel);
      }
      var next, moves, adjusted := WhiteLayerRound(pass, gotCube, cube, movesResult, budget, target);
      if !adjusted {
        break;
      }
      movesResult := moves;
      cube := next;
      budget := budget - 1;
    }
    return Ok(Stage(cube, movesResult));
  }

  /** solveWhiteLayer: its moves, where they stop, and none when there is nothing to do. */
  method SolveWhiteLayer(gotCube: Cube, fuel: nat) returns (r: Result<Stage, SolverError>)
    ensures r.Err? ==> r.error == OutOfFuel
    ensures r.Ok? <==> Repeat(WhiteLayerPass, gotCube, fuel).Ok?
    ensures r.Ok? ==> r.value.moves == Repeat(WhiteLayerPass, gotCube, fuel).value
    ensures r.Ok? ==> r.value.cube == Apply(gotCube, r.value.moves)
    ensures r.Ok? ==> WhiteLayerSettled(r.value.cube)
    ensures WhiteLayerDone(gotCube) && fuel > 0 ==> r == Ok(Stage(gotCube, []))
    ensures LooksSolved(gotCube) && fuel > 0 ==> r == Ok(Stage(gotCube, []))
  {
    r := PlayWhiteLayer(WhiteLayerPass, gotCube, fuel);
    WhiteLayerFacts(gotCube, fuel);
  }

  // ---------------------------------------------------------------------
  // Stage 3: solveSecondLayer

  /** Nothing for solveSecondLayer to do: yellow on every down edge and no flipped middle edge. */
  predicate SecondLayerDone(c: Cube)
  {
    NoneYellowEdgesIn(c, EdgePositions) == [] && FirstFixOf(UnOrientedEdges(c)) == []
  }

  /**
   * The moves solveSecondLayer plays for one edge: the D turn that brings it
   * under its slot, if any, then the insertion chosen by the colour now
   * at the slot; none when its colours have no entry.
   */
  function PlaceEdgeMoves(c: Cube, edge: FoundEdge): seq<Move>
  {
    match EdgeKeyOf(edge.colors)
    case None => []
    case Some(key) =>
      var turn := Moves(EdgePositionMove(edge.position, key));
      var insertKey := EdgeInsertSlot(key);
      turn + InsertEdge(insertKey, Look(Apply(c, turn), insertKey)).GetOr([])
  }

  /** The moves for the first of the edges that needs any, or none. */
  function FirstInsertion(c: Cube, edges: seq<FoundEdge>): (ms: seq<Move>)
    ensures ms == [] <==> forall i :: 0 <= i < |edges| ==> PlaceEdgeMoves(c, edges[i]) == []
    ensures ms != [] ==> exists i :: 0 <= i < |edges| && ms == PlaceEdgeMoves(c, edges[i]) &&
                                     forall j :: 0 <= j < i ==> PlaceEdgeMoves(c, edges[j]) == []
  {
    FirstNonEmpty(edge => PlaceEdgeMoves(c, edge), edges)
  }

  /** One pass of solveSecondLayer's `while (true)`: what it plays from `c`. */
  function SecondLayerPass(c: Cube): seq<Move>
  {
    var found := NoneYellowEdgesIn(c, EdgePositions);
    if |found| == 0 then FirstFixOf(UnOrientedEdges(c)) else FirstInsertion(c, found)
  }

  /** The state solveSecondLayer stops in: a pass finds nothing to play. */
  predicate SecondLayerSettled(c: Cube)
  {
    var found := NoneYellowEdgesIn(c, EdgePositions);
    (found == [] ==> FirstFixOf(UnOrientedEdges(c)) == []) &&
    forall i :: 0 <= i < |found| ==> PlaceEdgeMoves(c, found[i]) == []
  }

  /** A pass finds nothing to play exactly in the state the loop stops in. */
  lemma SecondLayerPassEmpty(c: Cube)
    ensures SecondLayerPass(c) == [] <==> SecondLayerSettled(c)
  {
    var found := NoneYellowEdgesIn(c, EdgePositions);
    if |found| > 0 {
      assert SecondLayerPass(c) == FirstInsertion(c, found);
    }
  }

  /** With nothing to do, solveSecondLayer plays nothing, given one pass. */
  lemma SecondLayerIdle(c: Cube, budget: nat)
    requires SecondLayerDone(c) && budget > 0
    ensures Repeat(SecondLayerPass, c, budget) == Ok([])
  {
  }

  /** The moves for one down edge without yellow, played step by step. */
  method PlaceEdge(start: Cube, edge: FoundEdge) returns (s: Stage)
    ensures s.cube == Apply(start, s.moves)
    ensures s.moves == PlaceEdgeMoves(start, edge)
  {
    var cube := start;
    var moveSequence: seq<Move> := [];
    var key := EdgeKeyOf(edge.colors);
    if key.Some? {
      var move := EdgePositionMove(edge.position, key.value);
      if move.Some? {
        PlayedOne(start, moveSequence, move.value);
        moveSequence := moveSequence + [move.value];
        cube := Turn(cube, move.value);
      }
      assert moveSequence == Moves(move);
      var insertKey := EdgeInsertSlot(key.value);
      var insert := InsertEdge(insertKey, Look(cube, insertKey));
      if insert.Some? {
        Played(start, moveSequence, insert.value);
        moveSequence := moveSequence + insert.value;
        cube := Apply(cube, insert.value);
      } else {
        assert moveSequence + [] == moveSequence;
      }
    } else {
      MoveEngine.ApplyNothing(start);
    }
    return Stage(cube, moveSequence);
  }

  /** What the moves of solveSecondLayer promise: where they stop, and none when there is nothing to do. */
  lemma SecondLayerFacts(c: Cube, fuel: nat)
    ensures Repeat(SecondLayerPass, c, fuel).Ok? ==> SecondLayerSettled(Apply(c, Repeat(SecondLayerPass, c, fuel).value))
    ensures (SecondLayerDone(c) || LooksSolved(c)) && fuel > 0 ==> Repeat(SecondLayerPass, c, fuel) == Ok([]) && Apply(c, []) == c
  {
    if LooksSolved(c) {
      SolvedSecondLayerDone(c);
    }
    if SecondLayerDone(c) && fuel > 0 {
      SecondLayerIdle(c, fuel);
      MoveEngine.ApplyNothing(c);
    }
    if Repeat(SecondLayerPass, c, fuel).Ok? {
      RepeatSettles(SecondLayerPass, c, fuel);
      SecondLayerPassEmpty(Apply(c, Repeat(SecondLayerPass, c, fuel).value));
    }
  }

  /**
   * One pass of solveSecondLayer's `while (true)`: with nothing found below, fix
   * the top of the layer; otherwise play the moves of the first down edge without yellow
   * that needs any.
   */
  method PlaySecondLayerPass(start: Cube) returns (s: Stage, adjusted: bool)
    ensures s.cube == Apply(start, s.moves)
    ensures s.moves == SecondLayerPass(start)
    ensures adjusted <==> s.moves != []
  {
    var cube := start;
    var movesResult: seq<Move> := [];
    var noneYellowEdges := FindEdges(cube);
    adjusted := false;
    if |noneYellowEdges| == 0 {
      var fixMoves := FixFlippedEdge(cube);
      if |fixMoves| > 0 {
        movesResult := fixMoves;
        cube := Apply(cube, fixMoves);
        adjusted := true;
      } else {
        MoveEngine.ApplyNothing(cube);
      }
      return Stage(cube, movesResult), adjusted;
    }
    s, adjusted := PlaceFirstEdge(edge => PlaceEdgeMoves(start, edge), start, noneYellowEdges);
  }

  /** placeEdge, seen through `place`, which is PlaceEdgeMoves on `start`. */
  method PlaceEdgeBy(ghost place: FoundEdge -> seq<Move>, start: Cube, edge: FoundEdge) returns (s: Stage)
    requires forall k {:trigger PlaceEdgeMoves(start, k)} :: place(k) == PlaceEdgeMoves(start, k)
    ensures s.cube == Apply(start, s.moves) && s.moves == place(edge)
  {
    s := PlaceEdge(start, edge);
  }

  /**
   * The `for` loop of a pass of solveSecondLayer over the edges found
   * without yellow: return after the first edge that plays any moves.
   */
  method PlaceFirstEdge(ghost place: FoundEdge -> seq<Move>, start: Cube, edges: seq<FoundEdge>)
    returns (s: Stage, adjusted: bool)
    requires forall k {:trigger PlaceEdgeMoves(start, k)} :: place(k) == PlaceEdgeMoves(start, k)
    ensures s.cube == Apply(start, s.moves)
    ensures s.moves == FirstNonEmpty(place, edges)
    ensures adjusted <==> s.moves != []
  {
    assert edges[0..] == edges;
    for i := 0 to |edges|
      invariant FirstNonEmpty(place, edges[i..]) == FirstNonEmpty(place, edges)
    {
      var placed := PlaceEdgeBy(place, start, edges[i]);
      if |placed.moves| > 0 {
        return placed, true;
      }
      assert edges[i..][1..] == edges[i + 1..];
    }
    MoveEngine.ApplyNothing(start);
    return Stage(start, []), false;
  }

  /**
   * One round of solveSecondLayer's `while (true)` after `movesResult`: either
   * the pass plays nothing and the moves are final, or the moves grow by the pass.
   * `pass` is SecondLayerPass, which only the pass itself looks into.
   */
  method SecondLayerRound(ghost pass: Cube -> seq<Move>, gotCube: Cube, cube: Cube, movesResult: seq<Move>, budget: nat, ghost target: Result<seq<Move>, SolverError>)
    returns (next: Cube, moves: seq<Move>, adjusted: bool)
    requires forall c {:trigger SecondLayerPass(c)} :: pass(c) == SecondLayerPass(c)
    requires cube == Apply(gotCube, movesResult) && budget > 0
    requires target == Then(movesResult, Repeat(pass, cube, budget))
    ensures !adjusted ==> target == Ok(movesResult)
    ensures adjusted ==> next == Apply(gotCube, moves) && target == Then(moves, Repeat(pass, next, budget - 1))
  {
    var s;
    s, adjusted := PlaySecondLayerPass(cube);
    RepeatStep(pass, target, movesResult, cube, budget, s.moves);
    if adjusted {
      Chain(gotCube, movesResult, cube, s);
    }
    return s.cube, movesResult + s.moves, adjusted;
  }

  /** The `while (true)` of solveSecondLayer: passes until one changes nothing. */
  method PlaySecondLayer(ghost pass: Cube -> seq<Move>, gotCube: Cube, fuel: nat) returns (r: Result<Stage, SolverError>)
    requires forall c {:trigger SecondLayerPass(c)} :: pass(c) == SecondLayerPass(c)
    ensures r.Err? ==> r.error == OutOfFuel
    ensures r.Ok? <==> Repeat(pass, gotCube, fuel).Ok?
    ensures r.Ok? ==> r.value.moves == Repeat(pass, gotCube, fuel).value
    ensures r.Ok? ==> r.value.cube == Apply(gotCube, r.value.moves)
  {
    var cube := gotCube;
    var movesResult: seq<Move> := [];
    ghost var target := Repeat(pass, gotCube, fuel);
    ThenNothing(target);
    var budget := fuel;
    while true
      invariant cube == Apply(gotCube, movesResult)
      invariant target == Then(movesResult, Repeat(pass, cube, budget))
      decreases budget
    {
      if budget == 0 {
        return Err(OutOfFuel);
      }
      var next, moves, adjusted := SecondLayerRound(pass, gotCube, cube, movesResult, budget, target);
      if !adjusted {
        break;
      }
      movesResult := moves;
      cube := next;
      budget := budget - 1;
    }
    return Ok(Stage(cube, movesResult));
  }

  /** solveSecondLayer: its moves, where they stop, and none when there is nothing to do. */
  method SolveSecondLayer(gotCube: Cube, fuel: nat) returns (r: Result<Stage, SolverError>)
    ensures r.Err? ==> r.error == OutOfFuel
    ensures r.Ok? <==> Repeat(SecondLayerPass, gotCube, fuel).Ok?
    ensures r.Ok? ==> r.value.moves == Repeat(SecondLayerPass, gotCube, fuel).value
    ensures r.Ok? ==> r.value.cube == Apply(gotCube, r.value.moves)
    ensures r.Ok? ==> SecondLayerSettled(r.value.cube)
    ensures SecondLayerDone(gotCube) && fuel > 0 ==> r == Ok(Stage(gotCube, []))
    ensures LooksSolved(gotCube) && fuel > 0 ==> r == Ok(Stage(gotCube, []))
  {
    r := PlaySecondLayer(SecondLayerPass, gotCube, fuel);
    SecondLayerFacts(gotCube, fuel);
  }

  // ---------------------------------------------------------------------
  // Stage 4: solveYellowCross

  /** The positions among `ps` whose side facelet is not yellow, in the order of `ps`. */
  function NotYellowSides(c: Cube, ps: seq<(EdgeName, Slot)>): (names: seq<string>)
    ensures |names| <= |ps|
    ensures forall i :: 0 <= i < |names| ==> |names[i]| == 2 && ' ' !in names[i]
  {
    if |ps| == 0 then []
    else
      var p := ps[|ps| - 1];
      NotYellowSides(c, ps[..|ps| - 1]) + (if Look(c, p.1) != Yellow then [EdgeNameString(p.0)] else [])
  }

  /** `yellowEgdes.sort().join(" ")`. */
  function YellowEdgeKey(c: Cube): string
  {
    JoinWithSpaces(SortBy(StringLe, NotYellowSides(c, YellowEdgePositions)))
  }

  /**
   * The moves solveYellowCross plays: the solution for the key, if it has
   * one. Only no or two non-yellow sides have a key the table lists.
   */
  function YellowCrossMoves(c: Cube): (ms: seq<Move>)
    ensures ms == [] <==> YellowEdgeSolution(YellowEdgeKey(c)).None?
    ensures ms != [] ==> |NotYellowSides(c, YellowEdgePositions)| in {0, 2}
  {
    YellowEdgeKeyLength(c);
    YellowEdgeSolution(YellowEdgeKey(c)).GetOr([])
  }

  /** solveYellowCross: collects the non-yellow sides, sorts and joins them, and plays the solution. */
  method SolveYellowCross(start: Cube) returns (s: Stage)
    ensures s.cube == Apply(start, s.moves)
    ensures s.moves == YellowCrossMoves(start)
  {
    var yellowEgdes: seq<string> := [];
    for i := 0 to |YellowEdgePositions|
      invariant yellowEgdes == NotYellowSides(start, YellowEdgePositions[..i])
    {
      var (position, slot) := YellowEdgePositions[i];
      if Look(start, slot) != Yellow {
        yellowEgdes := yellowEgdes + [EdgeNameString(position)];
      }
      assert YellowEdgePositions[..i + 1][..i] == YellowEdgePositions[..i];
    }
    assert YellowEdgePositions[..|YellowEdgePositions|] == YellowEdgePositions;
    var yellowEdgeKey := JoinWithSpaces(SortBy(StringLe, yellowEgdes));
    var solution := YellowEdgeSolution(yellowEdgeKey);
    if solution.Some? {
      return Stage(Apply(start, solution.value), solution.value);
    }
    MoveEngine.ApplyNothing(start);
    return Stage(start, []);
  }

  /** Joining `n` two-character names with spaces gives `3n - 1` characters. */
  lemma {:induction false} JoinLength(parts: seq<string>)
    requires forall i :: 0 <= i < |parts| ==> |parts[i]| == 2
    ensures |JoinWithSpaces(parts)| == if |parts| == 0 then 0 else 3 * |parts| - 1
  {
    if |parts| > 1 {
      JoinLength(parts[1..]);
    }
  }

  /** The key sorts the non-yellow side names, so its pieces are those names in sorted order. */
  lemma YellowEdgeKeySorted(c: Cube)
    ensures var sorted := SortBy(StringLe, NotYellowSides(c, YellowEdgePositions));
      SortedBy(StringLe, sorted) && multiset(sorted) == multiset(NotYellowSides(c, YellowEdgePositions)) &&
      (|sorted| > 0 ==> MoveNotation.Split(YellowEdgeKey(c)) == sorted)
  {
    var names := NotYellowSides(c, YellowEdgePositions);
    var sorted := SortBy(StringLe, names);
    SortStringsSortedPermutation(names);
    forall i | 0 <= i < |sorted|
      ensures ' ' !in sorted[i]
    {
      assert sorted[i] in multiset(names);
      assert sorted[i] in names;
    }
    if |sorted| > 0 {
      SplitJoin(sorted);
    }
  }

  /** The key of `n` non-yellow sides has `3n - 1` characters, or none. */
  lemma YellowEdgeKeyLength(c: Cube)
    ensures var n := |NotYellowSides(c, YellowEdgePositions)|;
      |YellowEdgeKey(c)| == if n == 0 then 0 else 3 * n - 1
  {
    var names := NotYellowSides(c, YellowEdgePositions);
    var sorted := SortBy(StringLe, names);
    SortStringsSortedPermutation(names);
    forall i | 0 <= i < |sorted|
      ensures |sorted[i]| == 2
    {
      assert sorted[i] in multiset(names);
    }
    JoinLength(sorted);
  }

  // ---------------------------------------------------------------------
  // Stage 5: solveCrossColor

  /**
   * The moves solveCrossColor plays for a cube: only for a green down edge
   * whose neighbours show two different colours of orange, red and blue.
   */
  function CrossColorMoves(c: Cube): (ms: seq<Move>)
    ensures FirstGreenEdge(c, GreenEdgePositions).None? ==> ms == []
    ensures ms != [] ==> var g := FirstGreenEdge(c, GreenEdgePositions).value;
      g.leftColor in {Orange, Red, Blue} && g.rightColor in {Orange, Red, Blue} && g.leftColor != g.rightColor
  {
    match FirstGreenEdge(c, GreenEdgePositions)
    case None => []
    case Some(g) => AdjustmentMoves(g.position, g.leftColor, g.rightColor).GetOr([])
  }

  /** solveCrossColor: finds the green down edge and plays the moves its neighbours' colours ask for. */
  method SolveCrossColor(start: Cube) returns (s: Stage)
    ensures s.cube == Apply(start, s.moves)
    ensures s.moves == CrossColorMoves(start)
    ensures (forall i :: 0 <= i < |GreenEdgePositions| ==> Look(start, GreenEdgePositions[i].slot) != Green) ==>
      s == Stage(start, [])
  {
    FirstGreenEdgeNone(start, GreenEdgePositions);
    MoveEngine.ApplyNothing(start);
    var greenEdgeData := FindGreenEdgeAndSides(start);
    if greenEdgeData.None? {
      return Stage(start, []);
    }
    var GreenEdge(position, leftColor, rightColor) := greenEdgeData.value;
    var moves := AdjustmentMoves(position, leftColor, rightColor);
    if moves.Some? {
      return Stage(Apply(start, moves.value), moves.value);
    }
    return Stage(start, []);
  }

  // ---------------------------------------------------------------------
  // Stage 6: solveYellowCorners

  /** All four down corners hold their colour sets. */
  predicate AllCornersCorrect(c: Cube)
  {
    forall i :: 0 <= i < |CornerPositions| ==> HoldsItsColors(c, CornerPositions[i])
  }

  /** An optional move as a list of zero or one moves. */
  function Moves(m: Option<Move>): (ms: seq<Move>)
    ensures |ms| <= 1
  {
    match m
    case None => []
    case Some(x) => [x]
  }

  /** The final adjustment undoes the position adjustment. */
  lemma AdjustmentsCancel(c: Cube, position: CornerName)
    ensures Apply(Apply(c, Moves(PositionAdjustment(position))), Moves(FinalAdjustment(position))) == c
  {
    MoveEngine.ApplyOne(c, D');
    MoveEngine.ApplyOne(c, D2);
    MoveEngine.ApplyOne(c, D);
    MoveEngine.ApplyOne(Turn(c, D'), D);
    MoveEngine.ApplyOne(Turn(c, D2), D2);
    MoveEngine.ApplyOne(Turn(c, D), D');
    MoveEngine.QuarterTurnsUndoEachOther(c, Down);
    MoveEngine.HalfTurnIsTwoQuarterTurns(c, Down);
  }

  /** `body` between the D turn that brings corner `p` to DLF and the one that takes it back. */
  function Bracketed(p: CornerName, body: seq<Move>): seq<Move>
  {
    Moves(PositionAdjustment(p)) + body + Moves(FinalAdjustment(p))
  }

  /**
   * The shape of stage 6's moves: `pre` creates a correct corner if there
   * was none, the corner found then is brought to DLF, the algorithm is
   * played, `extra` plays it again exactly when the DRF corner still lacks
   * one of its colours after the first, and the corner goes back.
   */
  ghost predicate CornerMoves(start: Cube, pre: seq<Move>, extra: seq<Move>, moves: seq<Move>)
  {
    (pre == [] || pre == MainAlgorithm) && (extra == [] || extra == MainAlgorithm) &&
    FirstCorrectCorner(Apply(start, pre), CornerPositions).Some? &&
    var p := FirstCorrectCorner(Apply(start, pre), CornerPositions).value;
    var played := Apply(Apply(Apply(start, pre), Moves(PositionAdjustment(p))), MainAlgorithm);
    (extra == MainAlgorithm <==> CheckCorrectColor(played, Some(p)).value) &&
    moves == pre + Bracketed(p, MainAlgorithm + extra)
  }

  /**
   * The moves of the part of solveYellowCorners after a correct corner `p`
   * is found: `main` bracketed by the D turns that bring `p` to DLF and
   * back, with `main` played twice when the DRF corner still lacks one of
   * its colours after the first.
   */
  function CorrectCornerMoves(c: Cube, p: CornerName, main: seq<Move>): (ms: seq<Move>)
    ensures ms == Bracketed(p, main) || ms == Bracketed(p, main + main)
    ensures ms == Bracketed(p, main + main) <==>
      (CheckCorrectColor(Apply(Apply(c, Moves(PositionAdjustment(p))), main), Some(p)).value || main == [])
  {
    var played := Apply(Apply(c, Moves(PositionAdjustment(p))), main);
    var extra := if CheckCorrectColor(played, Some(p)).value then main else [];
    assert main + [] == main;
    Bracketed(p, main + extra)
  }

  /** The algorithm solveYellowCorners plays first: only when no corner is at its place. */
  function CornerPre(c: Cube): (pre: seq<Move>)
    ensures pre == [] <==> FirstCorrectCorner(c, CornerPositions).Some?
    ensures pre != [] ==> pre == MainAlgorithm
  {
    if FirstCorrectCorner(c, CornerPositions).None? then MainAlgorithm else []
  }

  /**
   * The moves of solveYellowCorners: nothing when all corners are right;
   * otherwise one algorithm to create a correct corner if none is, then
   * the moves for the first correct corner; an error when the algorithm
   * does not create one.
   */
  function YellowCornerMoves(c: Cube): (r: Result<seq<Move>, SolverError>)
    ensures AllCornersCorrect(c) ==> r == Ok([])
    ensures r.Err? <==> (!AllCornersCorrect(c) &&
      FirstCorrectCorner(c, CornerPositions).None? &&
      FirstCorrectCorner(Apply(c, MainAlgorithm), CornerPositions).None?)
    ensures r.Err? ==> r.error == UndefinedCornerColors
    ensures r.Ok? && !AllCornersCorrect(c) ==>
      exists extra: seq<Move> ::
        CornerMoves(c, CornerPre(c), extra, r.value)
  {
    if AllCornersCorrect(c) then Ok([])
    else
      var pre := CornerPre(c);
      MoveEngine.ApplyNothing(c);
      var found := FirstCorrectCorner(Apply(c, pre), CornerPositions);
      if found.None? then Err(CheckCorrectColor(Apply(Apply(c, pre), MainAlgorithm), found).error)
      else
        var p := found.value;
        var ms := CorrectCornerMoves(Apply(c, pre), p, MainAlgorithm);
        var played := Apply(Apply(Apply(c, pre), Moves(PositionAdjustment(p))), MainAlgorithm);
        var extra := if CheckCorrectColor(played, Some(p)).value then MainAlgorithm else [];
        assert CornerMoves(c, pre, extra, pre + ms);
        Ok(pre + ms)
  }

  /** solveYellowCorners, step by step. */
  method SolveYellowCorners(start: Cube) returns (r: Result<Stage, SolverError>)
    ensures r.Ok? <==> YellowCornerMoves(start).Ok?
    ensures r.Ok? ==> r.value.moves == YellowCornerMoves(start).value
    ensures r.Ok? ==> r.value.cube == Apply(start, r.value.moves)
    ensures r.Err? ==> r.error == YellowCornerMoves(start).error
  {
    var cube := start;
    var moveResult: seq<Move> := [];
    var correctCornerPosition := FindCorrectYellowCornerPosition(cube);
    var allcornerCorrect := CheckCorrectCornerColors(cube);
    if allcornerCorrect {
      return Ok(Stage(cube, moveResult));
    }
    if correctCornerPosition.None? {
      moveResult := MainAlgorithm;
      cube := Apply(cube, MainAlgorithm);
      correctCornerPosition := FindCorrectYellowCornerPosition(cube);
    } else {
      MoveEngine.ApplyNothing(cube);
    }
    if correctCornerPosition.None? {
      // checkCorrectColor throws on the missing position, after one more algorithm
      return Err(CheckCorrectColor(Apply(cube, MainAlgorithm), correctCornerPosition).error);
    }
    var s := PlaceCorrectCorner(cube, correctCornerPosition.value, MainAlgorithm);
    Chain(start, moveResult, cube, s);
    return Ok(Stage(s.cube, moveResult + s.moves));
  }

  /**
   * The part of solveYellowCorners after a correct corner `p` is found:
   * bring it to DLF, play the algorithm `main`, play it again when the
   * DRF corner still lacks one of its colours, and turn the corner back.
   * stage 6 passes mainAlgorithm; taking it as a parameter keeps the proof
   * from unfolding its eight moves.
   */
  method PlaceCorrectCorner(start: Cube, p: CornerName, main: seq<Move>) returns (s: Stage)
    ensures s.cube == Apply(start, s.moves)
    ensures s.moves == CorrectCornerMoves(start, p, main)
  {
    var cube := start;
    var moveResult: seq<Move> := [];
    if p != DLF {
      var adjustmentMove := PositionAdjustment(p).value;
      PlayedOne(start, moveResult, adjustmentMove);
      moveResult := moveResult + [adjustmentMove];
      cube := Turn(cube, adjustmentMove);
    } else {
      MoveEngine.ApplyNothing(start);
    }
    assert cube == Apply(start, Moves(PositionAdjustment(p)));
    Played(start, moveResult, main);
    moveResult := moveResult + main;
    cube := Apply(cube, main);
    var checkedCorrectCorner := CheckCorrectColor(cube, Some(p));
    ghost var extra: seq<Move> := [];
    if checkedCorrectCorner.value {
      Played(start, moveResult, main);
      moveResult := moveResult + main;
      cube := Apply(cube, main);
      extra := main;
    }
    assert moveResult == Moves(PositionAdjustment(p)) + (main + extra);
    if p != DLF {
      var finalMove := FinalAdjustment(p).value;
      PlayedOne(start, moveResult, finalMove);
      moveResult := moveResult + [finalMove];
      cube := Turn(cube, finalMove);
    }
    return Stage(cube, moveResult);
  }

  // ---------------------------------------------------------------------
  // Stage 7: solveLastLayer

  /** `k` runs of the moves `ms`, one after another. */
  function RepeatMoves(ms: seq<Move>, k: nat): (r: seq<Move>)
    ensures |r| == k * |ms|
  {
    if k == 0 then [] else RepeatMoves(ms, k - 1) + ms
  }

  /** One pass of the `for` loop: `k` runs of lastAlgorithm, then D'. */
  function Round(k: nat): seq<Move>
  {
    RepeatMoves(LastAlgorithm, k) + [D']
  }

  /** The passes in order. */
  function Rounds(ks: seq<nat>): seq<Move>
  {
    if |ks| == 0 then [] else Rounds(ks[..|ks| - 1]) + Round(ks[|ks| - 1])
  }

  /** Starting from `c`, `k` runs of lastAlgorithm are the fewest that make D[0][2] yellow. */
  ghost predicate RunsUntilYellow(c: Cube, k: nat)
  {
    Apply(c, RepeatMoves(LastAlgorithm, k)).At(Down, 0, 2) == Yellow &&
    forall j :: 0 <= j < k ==> Apply(c, RepeatMoves(LastAlgorithm, j)).At(Down, 0, 2) != Yellow
  }

  /** Every pass of `ks`, played from `c`, runs the algorithm exactly until D[0][2] is yellow. */
  ghost predicate PassesFrom(c: Cube, ks: seq<nat>)
  {
    |ks| == 0 ||
    (PassesFrom(c, ks[..|ks| - 1]) && RunsUntilYellow(Apply(c, Rounds(ks[..|ks| - 1])), ks[|ks| - 1]))
  }

  /** No count of runs from 0 to `fuel` turns D[0][2] yellow, starting from `c`. */
  ghost predicate NeverYellowWithin(c: Cube, fuel: nat)
  {
    forall j :: 0 <= j <= fuel ==> Apply(c, RepeatMoves(LastAlgorithm, j)).At(Down, 0, 2) != Yellow
  }

  /** Every pass of `ks` runs the algorithm at most `fuel` times. */
  ghost predicate WithinFuel(ks: seq<nat>, fuel: nat)
  {
    forall i :: 0 <= i < |ks| ==> ks[i] <= fuel
  }

  /** The closing D turn, when the four down corners are yellow: chosen by F[2][1]. */
  function LastLayerAdjustment(c: Cube): (ms: seq<Move>)
    ensures |ms| <= 1
    ensures ms != [] ==> SolvedLastLayer(c) && c.At(Front, 2, 1) in {Red, Orange, Blue}
  {
    if SolvedLastLayer(c) then Moves(LastAdjustment(c.At(Front, 2, 1))) else []
  }

  /** No count of runs below the one a pass makes turns D[0][2] yellow. */
  lemma RunsUntilYellowLeast(c: Cube, k1: nat, k2: nat)
    requires RunsUntilYellow(c, k1)
    requires Apply(c, RepeatMoves(LastAlgorithm, k2)).At(Down, 0, 2) == Yellow
    ensures k1 <= k2
  {
  }

  /** The number of runs in a pass is determined by the cube it starts from. */
  lemma RunsUntilYellowUnique(c: Cube, k1: nat, k2: nat)
    requires RunsUntilYellow(c, k1) && RunsUntilYellow(c, k2)
    ensures k1 == k2
  {
    RunsUntilYellowLeast(c, k1, k2);
    RunsUntilYellowLeast(c, k2, k1);
  }

  /** So the passes, and with them stage 7's moves, are determined by the cube. */
  lemma {:induction false} PassesUnique(c: Cube, ks1: seq<nat>, ks2: seq<nat>)
    requires |ks1| == |ks2| && PassesFrom(c, ks1) && PassesFrom(c, ks2)
    ensures ks1 == ks2
    decreases |ks1|
  {
    if |ks1| > 0 {
      var n := |ks1| - 1;
      PassesUnique(c, ks1[..n], ks2[..n]);
      RunsUntilYellowUnique(Apply(c, Rounds(ks1[..n])), ks1[n], ks2[n]);
      assert ks1 == ks1[..n] + [ks1[n]] && ks2 == ks2[..n] + [ks2[n]];
    }
  }

  /** A D' turn keeps a yellow down face yellow. */
  lemma DownTurnKeepsYellowDown(c: Cube)
    requires c.d == Uniform(Yellow)
    ensures Turn(c, D').d == Uniform(Yellow)
  {
  }

  /** Four passes that run the algorithm no time at all. */
  const NoRuns: seq<nat> := [0, 0, 0, 0]

  /** With the down face all yellow, every pass runs the algorithm no time, and D' keeps it yellow. */
  lemma {:induction false} NoRunsPass(c: Cube, n: nat)
    requires c.d == Uniform(Yellow) && n <= 4
    ensures PassesFrom(c, NoRuns[..n]) && Apply(c, Rounds(NoRuns[..n])).d == Uniform(Yellow)
  {
    if n > 0 {
      NoRunsPass(c, n - 1);
      var before := Apply(c, Rounds(NoRuns[..n - 1]));
      assert NoRuns[..n][..n - 1] == NoRuns[..n - 1] && NoRuns[n - 1] == 0;
      assert Rounds(NoRuns[..n]) == Rounds(NoRuns[..n - 1]) + [D'];
      MoveEngine.ApplyNothing(before);
      assert RunsUntilYellow(before, 0);
      PlayedOne(c, Rounds(NoRuns[..n - 1]), D');
      DownTurnKeepsYellowDown(before);
    }
  }

  /** Stage 7's answer for `start`: four passes as `ks` says, then the closing turn. */
  ghost predicate LastLayerMoves(start: Cube, ks: seq<nat>, moves: seq<Move>)
  {
    |ks| == 4 && PassesFrom(start, ks) &&
    moves == Rounds(ks) + LastLayerAdjustment(Apply(start, Rounds(ks)))
  }

  /**
   * Stage 7 runs out of fuel: after some of its passes, each run until
   * D[0][2] was yellow, no count of runs up to `fuel` makes it yellow.
   */
  ghost predicate LastLayerFails(start: Cube, fuel: nat)
  {
    exists ks: seq<nat> :: FailsAfter(start, ks, fuel)
  }

  /** After the passes `ks`, fewer than four, the next pass cannot make D[0][2] yellow within `fuel` runs. */
  ghost predicate FailsAfter(start: Cube, ks: seq<nat>, fuel: nat)
  {
    |ks| < 4 && PassesFrom(start, ks) && NeverYellowWithin(Apply(start, Rounds(ks)), fuel)
  }

  /** A pass that runs out of fuel after the passes `ks` makes stage 7 run out of fuel. */
  lemma LastLayerFailsAt(start: Cube, ks: seq<nat>, fuel: nat)
    requires |ks| < 4 && PassesFrom(start, ks) && NeverYellowWithin(Apply(start, Rounds(ks)), fuel)
    ensures LastLayerFails(start, fuel)
  {
    assert FailsAfter(start, ks, fuel);
  }

  /** One more pass within the fuel keeps the passes within the fuel. */
  lemma WithinFuelStep(ks: seq<nat>, k: nat, fuel: nat)
    requires WithinFuel(ks, fuel) && k <= fuel
    ensures WithinFuel(ks + [k], fuel)
  {
  }

  /** The passes of a prefix are passes too. */
  lemma {:induction false} PassesPrefix(c: Cube, ks: seq<nat>, n: nat)
    requires PassesFrom(c, ks) && n <= |ks|
    ensures PassesFrom(c, ks[..n])
    decreases |ks|
  {
    if n == |ks| {
      assert ks[..n] == ks;
    } else {
      PassesPrefix(c, ks[..|ks| - 1], n);
      assert ks[..|ks| - 1][..n] == ks[..n];
    }
  }

  /** Four passes within the fuel rule out running out of fuel in any of them. */
  lemma LastLayerSucceeds(start: Cube, ks: seq<nat>, fuel: nat)
    requires |ks| == 4 && PassesFrom(start, ks) && WithinFuel(ks, fuel)
    ensures !LastLayerFails(start, fuel)
  {
    forall ks': seq<nat> | |ks'| < 4 && PassesFrom(start, ks')
      ensures !FailsAfter(start, ks', fuel)
    {
      var n := |ks'|;
      PassAt(start, ks, n);
      PassesUnique(start, ks', ks[..n]);
      YellowWithin(Apply(start, Rounds(ks[..n])), ks[n], fuel);
    }
  }

  /** Pass `n` of passes `ks` follows the passes before it and runs until D[0][2] is yellow. */
  lemma PassAt(c: Cube, ks: seq<nat>, n: nat)
    requires PassesFrom(c, ks) && n < |ks|
    ensures PassesFrom(c, ks[..n]) && RunsUntilYellow(Apply(c, Rounds(ks[..n])), ks[n])
  {
    PassesPrefix(c, ks, n + 1);
    assert ks[..n + 1][..n] == ks[..n];
  }

  /** A pass that ends within the fuel is no pass that runs out of it. */
  lemma YellowWithin(c: Cube, k: nat, fuel: nat)
    requires RunsUntilYellow(c, k) && k <= fuel
    ensures !NeverYellowWithin(c, fuel)
  {
  }

  /** The inner `while`: lastAlgorithm, as many times as it takes to make D[0][2] yellow. */
  method RunUntilYellow(start: Cube, fuel: nat) returns (r: Result<Stage, SolverError>, ghost k: nat)
    ensures r.Ok? ==> RunsUntilYellow(start, k) && r.value.moves == RepeatMoves(LastAlgorithm, k)
    ensures r.Ok? ==> r.value.cube == Apply(start, r.value.moves) && k <= fuel
    ensures r.Err? <==> NeverYellowWithin(start, fuel)
    ensures r.Err? ==> r.error == OutOfFuel
    ensures start.At(Down, 0, 2) == Yellow ==> r == Ok(Stage(start, [])) && k == 0
  {
    var cube := start;
    var moveResult: seq<Move> := [];
    k := 0;
    var budget := fuel;
    while cube.At(Down, 0, 2) != Yellow
      invariant moveResult == RepeatMoves(LastAlgorithm, k)
      invariant cube == Apply(start, moveResult)
      invariant NeverYellowBelow(start, k)
      invariant start.At(Down, 0, 2) == Yellow ==> k == 0
      invariant k + budget == fuel
      decreases budget
    {
      if budget == 0 {
        NeverYellowUpTo(start, k);
        return Err(OutOfFuel), k;
      }
      budget := budget - 1;
      NeverYellowBelowStep(start, k);
      Played(start, moveResult, LastAlgorithm);
      moveResult := moveResult + LastAlgorithm;
      cube := Apply(cube, LastAlgorithm);
      k := k + 1;
    }
    MoveEngine.ApplyNothing(start);
    YellowWithinFuel(start, k, fuel);
    return Ok(Stage(cube, moveResult)), k;
  }

  /** No count below `k` turns D[0][2] yellow, starting from `c`. */
  ghost predicate NeverYellowBelow(c: Cube, k: nat)
  {
    forall j :: 0 <= j < k ==> Apply(c, RepeatMoves(LastAlgorithm, j)).At(Down, 0, 2) != Yellow
  }

  /** The counts below `k` and `k` itself: the counts below `k + 1`. */
  lemma NeverYellowBelowStep(c: Cube, k: nat)
    requires NeverYellowBelow(c, k) && Apply(c, RepeatMoves(LastAlgorithm, k)).At(Down, 0, 2) != Yellow
    ensures NeverYellowBelow(c, k + 1)
  {
  }

  /** No count below `k` turns D[0][2] yellow and `k` does not either: none up to `k` does. */
  lemma NeverYellowUpTo(start: Cube, k: nat)
    requires NeverYellowBelow(start, k)
    requires Apply(start, RepeatMoves(LastAlgorithm, k)).At(Down, 0, 2) != Yellow
    ensures NeverYellowWithin(start, k)
  {
  }

  /** A count within the fuel turns D[0][2] yellow, so the fuel does not run out. */
  lemma YellowWithinFuel(start: Cube, k: nat, fuel: nat)
    requires Apply(start, RepeatMoves(LastAlgorithm, k)).At(Down, 0, 2) == Yellow && k <= fuel
    ensures !NeverYellowWithin(start, fuel)
  {
  }

  /** One more pass extends the passes by its count. */
  lemma NextPass(start: Cube, ks: seq<nat>, k: nat)
    requires PassesFrom(start, ks) && RunsUntilYellow(Apply(start, Rounds(ks)), k)
    ensures PassesFrom(start, ks + [k])
    ensures Rounds(ks + [k]) == Rounds(ks) + RepeatMoves(LastAlgorithm, k) + [D']
  {
    assert (ks + [k])[..|ks|] == ks;
  }

  /**
   * solveLastLayer: four passes, each running lastAlgorithm until D[0][2]
   * is yellow and then turning D'; then, with the last layer done, one D
   * turn chosen by F[2][1]. Only the moves are returned.
   */
  method SolveLastLayer(start: Cube, fuel: nat) returns (r: Result<seq<Move>, SolverError>)
    ensures r.Ok? ==> exists ks: seq<nat> :: LastLayerMoves(start, ks, r.value) && WithinFuel(ks, fuel)
    ensures r.Err? <==> LastLayerFails(start, fuel)
    ensures r.Err? ==> r.error == OutOfFuel
    ensures start.d == Uniform(Yellow) ==>
      r == Ok(Rounds(NoRuns) + LastLayerAdjustment(Apply(start, Rounds(NoRuns))))
  {
    var cube := start;
    var moveResult: seq<Move> := [];
    ghost var ks: seq<nat> := [];
    for i := 0 to 4
      invariant |ks| == i && PassesFrom(start, ks)
      invariant moveResult == Rounds(ks) && cube == Apply(start, moveResult)
      invariant WithinFuel(ks, fuel)
      invariant start.d == Uniform(Yellow) ==> cube.d == Uniform(Yellow)
    {
      var pass, k := RunUntilYellow(cube, fuel);
      if pass.Err? {
        LastLayerFailsAt(start, ks, fuel);
        return Err(pass.error);
      }
      WithinFuelStep(ks, k, fuel);
      NextPass(start, ks, k);
      Played(start, moveResult, pass.value.moves);
      PlayedOne(start, moveResult + pass.value.moves, D');
      if start.d == Uniform(Yellow) {
        DownTurnKeepsYellowDown(cube);
      }
      moveResult := moveResult + pass.value.moves + [D'];
      cube := Turn(pass.value.cube, D');
      ks := ks + [k];
    }
    ghost var passes, afterPasses := moveResult, cube;
    if SolvedLastLayer(cube) {
      var color := cube.At(Front, 2, 1);
      var adjustment := LastAdjustment(color);
      if adjustment.Some? {
        moveResult := moveResult + [adjustment.value];
        cube := Turn(cube, adjustment.value);
      }
    }
    assert moveResult == passes + LastLayerAdjustment(afterPasses);
    assert LastLayerMoves(start, ks, moveResult);
    LastLayerSucceeds(start, ks, fuel);
    if start.d == Uniform(Yellow) {
      YellowDownAnswer(start, ks, moveResult);
    }
    return Ok(moveResult);
  }

  /** With the down face all yellow, stage 7's answer is the one of four passes of no runs. */
  lemma YellowDownAnswer(start: Cube, ks: seq<nat>, moves: seq<Move>)
    requires start.d == Uniform(Yellow) && LastLayerMoves(start, ks, moves)
    ensures moves == Rounds(NoRuns) + LastLayerAdjustment(Apply(start, Rounds(NoRuns)))
  {
    NoRunsPass(start, 4);
    assert NoRuns[..4] == NoRuns;
    PassesUnique(start, ks, NoRuns);
  }

  /** Four passes of no runs are four D' turns. */
  lemma NoRunsAreFourDownTurns()
    ensures Rounds(NoRuns) == [D', D', D', D']
  {
    assert Round(0) == [D'];
    assert [0][..0] == [] && [0, 0][..1] == [0] && [0, 0, 0][..2] == [0, 0] && NoRuns[..3] == [0, 0, 0];
    assert Rounds([0]) == [D'];
    assert Rounds([0, 0]) == [D', D'];
    assert Rounds([0, 0, 0]) == [D', D', D'];
  }

  /** Four D' turns bring any cube back. */
  lemma FourDownTurns(c: Cube)
    ensures Apply(c, [D', D', D', D']) == c
  {
    MoveEngine.CounterclockwiseHasOrderFour(c, Down);
    var c1 := Turn(c, D');
    var c2 := Turn(c1, D');
    var c3 := Turn(c2, D');
    MoveEngine.ApplyOne(c3, D');
    assert [D', D', D', D'][1..] == [D', D', D'];
    assert [D', D', D'][1..] == [D', D'];
    assert [D', D'][1..] == [D'];
    assert Apply(c2, [D', D']) == Apply(c3, [D']);
    assert Apply(c1, [D', D', D']) == Apply(c2, [D', D']);
  }

  /** On the solved cube the last layer is done and F[2][1] is green, so no closing turn is made. */
  lemma SolvedNeedsNoLastAdjustment(c: Cube)
    requires LooksSolved(c)
    ensures LastLayerAdjustment(c) == []
  {
    assert c.At(Front, 2, 1) == Green;
  }

  /** On the solved cube stage 7 answers four D' turns. */
  lemma SolvedLastLayerAnswer(c: Cube)
    requires LooksSolved(c)
    ensures Rounds(NoRuns) + LastLayerAdjustment(Apply(c, Rounds(NoRuns))) == [D', D', D', D']
  {
    NoRunsAreFourDownTurns();
    FourDownTurns(c);
    SolvedNeedsNoLastAdjustment(c);
  }

  // ---------------------------------------------------------------------
  // solveRubikCube

  /** `{startRubikCube, moves}`. */
  datatype Step = Step(startRubikCube: Cube, moves: seq<Move>)

  /** The seven steps solveRubikCube reports. */
  datatype Solution = Solution(step1: Step, step2: Step, step3: Step, step4: Step, step5: Step, step6: Step, step7: Step)

  /** Step 1 starts from the input, and every later step from where the one before it ended. */
  predicate Chained(cube: Cube, s: Solution)
  {
    s.step1.startRubikCube == cube &&
    s.step2.startRubikCube == Apply(s.step1.startRubikCube, s.step1.moves) &&
    s.step3.startRubikCube == Apply(s.step2.startRubikCube, s.step2.moves) &&
    s.step4.startRubikCube == Apply(s.step3.startRubikCube, s.step3.moves) &&
    s.step5.startRubikCube == Apply(s.step4.startRubikCube, s.step4.moves) &&
    s.step6.startRubikCube == Apply(s.step5.startRubikCube, s.step5.moves) &&
    s.step7.startRubikCube == Apply(s.step6.startRubikCube, s.step6.moves)
  }

  /** Every step's moves are exactly what its stage plays from where the step starts, with `fuel` rounds per loop. */
  ghost predicate StagesAgree(s: Solution, fuel: nat)
  {
    WhiteCrossMoves(s.step1.startRubikCube, fuel) == Ok(s.step1.moves) &&
    Repeat(WhiteLayerPass, s.step2.startRubikCube, fuel) == Ok(s.step2.moves) &&
    Repeat(SecondLayerPass, s.step3.startRubikCube, fuel) == Ok(s.step3.moves) &&
    s.step4.moves == YellowCrossMoves(s.step4.startRubikCube) &&
    s.step5.moves == CrossColorMoves(s.step5.startRubikCube) &&
    YellowCornerMoves(s.step6.startRubikCube) == Ok(s.step6.moves) &&
    exists ks: seq<nat> :: LastLayerMoves(s.step7.startRubikCube, ks, s.step7.moves)
  }

  /**
   * The error solveRubikCube stops with, if any: that of the first stage
   * whose specification fails from the cube the stages before it reach.
   * Stages 1 to 3 and 7 can only run out of fuel; stage 6 can meet the
   * missing corner position.
   */
  ghost function SolveError(cube: Cube, fuel: nat): Option<SolverError>
  {
    var m := WhiteCrossMoves(cube, fuel);
    if m.Err? then Some(OutOfFuel) else ErrorFromWhiteLayer(Apply(cube, m.value), fuel)
  }

  /** The error of stages 2 to 7, started from `c`. */
  ghost function ErrorFromWhiteLayer(c: Cube, fuel: nat): Option<SolverError>
  {
    var m := Repeat(WhiteLayerPass, c, fuel);
    if m.Err? then Some(OutOfFuel) else ErrorFromSecondLayer(Apply(c, m.value), fuel)
  }

  /** The error of stages 3 to 7, started from `c`. */
  ghost function ErrorFromSecondLayer(c: Cube, fuel: nat): Option<SolverError>
  {
    var m := Repeat(SecondLayerPass, c, fuel);
    if m.Err? then Some(OutOfFuel) else ErrorFromYellowCross(Apply(c, m.value), fuel)
  }

  /** The error of stages 4 to 7, started from `c`: stages 4 and 5 cannot fail. */
  ghost function ErrorFromYellowCross(c: Cube, fuel: nat): Option<SolverError>
  {
    var c4 := Apply(c, YellowCrossMoves(c));
    ErrorFromYellowCorners(Apply(c4, CrossColorMoves(c4)), fuel)
  }

  /** The error of stages 6 and 7, started from `c`. */
  ghost function ErrorFromYellowCorners(c: Cube, fuel: nat): Option<SolverError>
  {
    var m := YellowCornerMoves(c);
    if m.Err? then Some(m.error)
    else if LastLayerFails(Apply(c, m.value), fuel) then Some(OutOfFuel)
    else None
  }

  /** All the moves, step 1 first. */
  function AllSteps(s: Solution): seq<Move>
  {
    s.step1.moves + s.step2.moves + s.step3.moves + s.step4.moves + s.step5.moves + s.step6.moves + s.step7.moves
  }

  /** What the solver reports for the solved cube: nothing to do but four D' turns in the last step. */
  function SolvedRun(c: Cube): Solution
  {
    Solution(Step(c, []), Step(c, []), Step(c, []), Step(c, []), Step(c, []), Step(c, []), Step(c, [D', D', D', D']))
  }

  /**
   * solveRubikCube: runs the seven stages, each on the cube the previous
   * one reached, and reports each stage's start and moves.
   */
  method SolveRubikCube(cube: Cube, fuel: nat) returns (r: Result<Solution, SolverError>)
    ensures r.Ok? ==> Chained(cube, r.value) && StagesAgree(r.value, fuel)
    ensures r.Err? <==> SolveError(cube, fuel).Some?
    ensures r.Err? ==> r.error == SolveError(cube, fuel).value
    ensures LooksSolved(cube) && fuel > 0 ==> r == Ok(SolvedRun(cube))
  {
    ghost var solved := LooksSolved(cube) && fuel > 0;
    if solved {
      SolvedIsDone(cube);
    }
    var step1 := SolveWhiteCross(cube, fuel);
    if step1.Err? {
      return Err(step1.error);
    }
    assert solved ==> step1.value == Stage(cube, []);
    assert SolveError(cube, fuel) == ErrorFromWhiteLayer(step1.value.cube, fuel);
    var step2 := SolveWhiteLayer(step1.value.cube, fuel);
    if step2.Err? {
      return Err(step2.error);
    }
    assert solved ==> step2.value == Stage(cube, []);
    assert SolveError(cube, fuel) == ErrorFromSecondLayer(step2.value.cube, fuel);
    var step3 := SolveSecondLayer(step2.value.cube, fuel);
    if step3.Err? {
      return Err(step3.error);
    }
    assert solved ==> step3.value == Stage(cube, []);
    assert SolveError(cube, fuel) == ErrorFromYellowCross(step3.value.cube, fuel);
    var step4 := SolveYellowCross(step3.value.cube);
    assert solved ==> step4 == Stage(cube, []);
    var step5 := SolveCrossColor(step4.cube);
    assert solved ==> step5 == Stage(cube, []);
    assert SolveError(cube, fuel) == ErrorFromYellowCorners(step5.cube, fuel);
    var step6 := SolveYellowCorners(step5.cube);
    if step6.Err? {
      return Err(step6.error);
    }
    assert solved ==> step6.value == Stage(cube, []);
    var step7moves := SolveLastLayer(step6.value.cube, fuel);
    if solved {
      SolvedLastLayerAnswer(cube);
    }
    if step7moves.Err? {
      return Err(step7moves.error);
    }
    return Ok(Solution(
      Step(cube, step1.value.moves),
      Step(step1.value.cube, step2.value.moves),
      Step(step2.value.cube, step3.value.moves),
      Step(step3.value.cube, step4.moves),
      Step(step4.cube, step5.moves),
      Step(step5.cube, step6.value.moves),
      Step(step6.value.cube, step7moves.value)));
  }

  /** Playing all seven steps' moves from the input ends where step 7 ends. */
  lemma SolutionReplays(cube: Cube, s: Solution)
    requires Chained(cube, s)
    ensures Apply(cube, AllSteps(s)) == Apply(s.step7.startRubikCube, s.step7.moves)
  {
    var m1, m2, m3, m4, m5, m6, m7 := s.step1.moves, s.step2.moves, s.step3.moves, s.step4.moves, s.step5.moves, s.step6.moves, s.step7.moves;
    Played(cube, m1, m2);
    Played(cube, m1 + m2, m3);
    Played(cube, m1 + m2 + m3, m4);
    Played(cube, m1 + m2 + m3 + m4, m5);
    Played(cube, m1 + m2 + m3 + m4 + m5, m6);
    Played(cube, m1 + m2 + m3 + m4 + m5 + m6, m7);
  }

  /** There is only one chained solution whose steps agree with their stages: the stages leave no choice. */
  lemma SolutionDetermined(cube: Cube, fuel: nat, s1: Solution, s2: Solution)
    requires Chained(cube, s1) && StagesAgree(s1, fuel)
    requires Chained(cube, s2) && StagesAgree(s2, fuel)
    ensures s1 == s2
  {
    assert s1.step6 == s2.step6;
    var ks1: seq<nat> :| LastLayerMoves(s1.step7.startRubikCube, ks1, s1.step7.moves);
    var ks2: seq<nat> :| LastLayerMoves(s2.step7.startRubikCube, ks2, s2.step7.moves);
    PassesUnique(s1.step7.startRubikCube, ks1, ks2);
  }

  /** The solver's answer for the solved cube leaves it solved. */
  lemma SolvedRunKeepsSolved(c: Cube)
    requires c == Default()
    ensures Chained(c, SolvedRun(c))
    ensures Apply(c, AllSteps(SolvedRun(c))) == c
  {
    MoveEngine.ApplyNothing(c);
    FourDownTurns(c);
    assert AllSteps(SolvedRun(c)) == [D', D', D', D'];
  }

  // ---------------------------------------------------------------------
  // The solved cube

  /** The colour of every facelet of a face on the solved cube. */
  function SolvedColor(face: FaceName): Color
  {
    match face
    case Up => White
    case Down => Yellow
    case Front => Green
    case Back => Blue
    case Left => Orange
    case Right => Red
  }

  /** Every facelet of `c` has its face's solved colour. */
  predicate LooksSolved(c: Cube)
  {
    forall name: FaceName, y: Index, x: Index :: c.At(name, y, x) == SolvedColor(name)
  }

  /** The solved cube shows each face's solved colour everywhere. */
  lemma DefaultLooksSolved(c: Cube)
    requires c == Default()
    ensures LooksSolved(c)
  {
    forall name: FaceName, y: Index, x: Index
      ensures c.At(name, y, x) == SolvedColor(name)
    {
    }
  }

  /** With no white on any of the corners `ks`, none is found. */
  lemma {:induction false} NoWhiteCorners(c: Cube, ks: seq<CornerSlots>)
    requires forall k :: k in ks ==> White !in CornerColors(c, k)
    ensures WhiteCornersIn(c, ks) == []
  {
    if |ks| > 0 {
      NoWhiteCorners(c, ks[..|ks| - 1]);
    }
  }

  /** With yellow on every edge of `es`, none is found. */
  lemma {:induction false} NoYellowFreeEdges(c: Cube, es: seq<EdgeSlots>)
    requires forall e :: e in es ==> Yellow in EdgeColors(c, e)
    ensures NoneYellowEdgesIn(c, es) == []
  {
    if |es| > 0 {
      NoYellowFreeEdges(c, es[..|es| - 1]);
    }
  }

  /** With no yellow side facelet among `ps`, every position is collected. */
  lemma {:induction false} AllSidesNotYellow(c: Cube, ps: seq<(EdgeName, Slot)>)
    requires forall i :: 0 <= i < |ps| ==> Look(c, ps[i].1) != Yellow
    ensures |NotYellowSides(c, ps)| == |ps|
  {
    if |ps| > 0 {
      AllSidesNotYellow(c, ps[..|ps| - 1]);
    }
  }

  /** A table that looks only at side faces finds no white on the solved cube. */
  lemma NoWhiteInSolved(c: Cube, entries: seq<SolvingEntry>)
    requires LooksSolved(c)
    requires forall i :: 0 <= i < |entries| ==> entries[i].slot.face != Up
    ensures NoWhiteIn(c, entries)
  {
    forall i | 0 <= i < |entries|
      ensures Look(c, entries[i].slot) != White
    {
      assert Look(c, entries[i].slot) == SolvedColor(entries[i].slot.face);
    }
  }

  lemma SolvedWhiteCrossDone(c: Cube)
    requires LooksSolved(c)
    ensures WhiteCrossDone(c)
  {
    NoWhiteInSolved(c, WhiteEdgesF);
    NoWhiteInSolved(c, WhiteEdgesR);
    NoWhiteInSolved(c, WhiteEdgesB);
    NoWhiteInSolved(c, WhiteEdgesL);
    forall i | 0 <= i < |EdgeMoveKeys|
      ensures Look(c, EdgeMoveKeys[i]) != White
    {
      assert Look(c, EdgeMoveKeys[i]) == SolvedColor(EdgeMoveKeys[i].face);
    }
  }

  /** No corner of the solved cube looks at the up face. */
  lemma SolvedCornerColors(c: Cube, k: CornerSlots)
    requires LooksSolved(c)
    ensures CornerColors(c, k) == [SolvedColor(k.s1.face), SolvedColor(k.s2.face), SolvedColor(k.s3.face)]
  {
    assert Look(c, k.s1) == SolvedColor(k.s1.face);
    assert Look(c, k.s2) == SolvedColor(k.s2.face);
    assert Look(c, k.s3) == SolvedColor(k.s3.face);
  }

  lemma SolvedNoWhiteCorners(c: Cube)
    requires LooksSolved(c)
    ensures WhiteCornersIn(c, CornerPositions) == []
  {
    forall k | k in CornerPositions
      ensures White !in CornerColors(c, k)
    {
      SolvedCornerColors(c, k);
    }
    NoWhiteCorners(c, CornerPositions);
  }

  /** No entry fires, so there is no fix. */
  lemma {:induction false} NothingFires(entries: seq<FixEntry>)
    requires forall e :: e in entries ==> !Fires(e)
    ensures FirstFixOf(entries) == []
  {
    if |entries| > 0 {
      assert entries[0] in entries;
      NothingFires(entries[1..]);
    }
  }

  lemma SolvedUpperLayerFixed(c: Cube)
    requires LooksSolved(c)
    ensures FirstFixOf(UpperLayerCorners(c)) == []
  {
    NothingFires(UpperLayerCorners(c));
  }

  lemma SolvedWhiteLayerDone(c: Cube)
    requires LooksSolved(c)
    ensures WhiteLayerDone(c)
  {
    SolvedNoWhiteCorners(c);
    SolvedUpperLayerFixed(c);
  }

  lemma SolvedNoYellowFreeEdges(c: Cube)
    requires LooksSolved(c)
    ensures NoneYellowEdgesIn(c, EdgePositions) == []
  {
    forall e | e in EdgePositions
      ensures Yellow in EdgeColors(c, e)
    {
      assert Look(c, e.s1) == SolvedColor(e.s1.face);
    }
    NoYellowFreeEdges(c, EdgePositions);
  }

  lemma SolvedMiddleEdgesFixed(c: Cube)
    requires LooksSolved(c)
    ensures FirstFixOf(UnOrientedEdges(c)) == []
  {
    NothingFires(UnOrientedEdges(c));
  }

  lemma SolvedSecondLayerDone(c: Cube)
    requires LooksSolved(c)
    ensures SecondLayerDone(c)
  {
    SolvedNoYellowFreeEdges(c);
    SolvedMiddleEdgesFixed(c);
  }

  lemma SolvedYellowCrossDone(c: Cube)
    requires LooksSolved(c)
    ensures YellowCrossMoves(c) == []
  {
    forall i | 0 <= i < |YellowEdgePositions|
      ensures Look(c, YellowEdgePositions[i].1) != Yellow
    {
      assert Look(c, YellowEdgePositions[i].1) == SolvedColor(YellowEdgePositions[i].1.face);
    }
    AllSidesNotYellow(c, YellowEdgePositions);
  }

  lemma SolvedCrossColorDone(c: Cube)
    requires LooksSolved(c)
    ensures CrossColorMoves(c) == []
  {
    assert Look(c, GreenEdgePositions[0].slot) == SolvedColor(GreenEdgePositions[0].slot.face);
  }

  lemma SolvedCornersCorrect(c: Cube)
    requires LooksSolved(c)
    ensures AllCornersCorrect(c)
  {
    forall i | 0 <= i < |CornerPositions|
      ensures HoldsItsColors(c, CornerPositions[i])
    {
      SolvedCornerColors(c, CornerPositions[i]);
    }
  }

  /** A face whose nine facelets show its solved colour is that colour's uniform face. */
  lemma SolvedFace(c: Cube, name: FaceName)
    requires LooksSolved(c)
    ensures c.FaceOf(name) == Uniform(SolvedColor(name))
  {
    var col := SolvedColor(name);
    assert c.At(name, 0, 0) == c.At(name, 0, 1) == c.At(name, 0, 2) == col;
    assert c.At(name, 1, 0) == c.At(name, 1, 1) == c.At(name, 1, 2) == col;
    assert c.At(name, 2, 0) == c.At(name, 2, 1) == c.At(name, 2, 2) == col;
  }

  /** `LooksSolved` holds of the solved cube and of nothing else. */
  lemma LooksSolvedIsDefault(c: Cube)
    ensures LooksSolved(c) <==> c == Default()
  {
    if LooksSolved(c) {
      SolvedFace(c, Up);
      SolvedFace(c, Down);
      SolvedFace(c, Front);
      SolvedFace(c, Back);
      SolvedFace(c, Left);
      SolvedFace(c, Right);
    }
    if c == Default() {
      DefaultLooksSolved(c);
    }
  }

  /** On the solved cube stages 1 and 4 to 6 find nothing to do; stages 2 and 3 see it from `LooksSolved`. */
  lemma SolvedIsDone(c: Cube)
    requires LooksSolved(c)
    ensures WhiteCrossDone(c)
    ensures YellowCrossMoves(c) == [] && CrossColorMoves(c) == [] && AllCornersCorrect(c)
    ensures c.d == Uniform(Yellow)
  {
    SolvedFace(c, Down);
    SolvedWhiteCrossDone(c);
    SolvedYellowCrossDone(c);
    SolvedCrossColorDone(c);
    SolvedCornersCorrect(c);
  }
}
