/**
 * What the move table guarantees: the moves are permutations of the
 * facelets that keep the centres and the opposite face, the three moves
 * of a face agree with each other, and rotateCube is a left fold.
 */
module MoveEngine {
  import opened FaceColor
  import opened MoveNotation
  import opened CubeState

  /** The face across the cube. */
  function Opposite(face: FaceName): (o: FaceName)
    ensures o != face
  {
    match face
    case Up => Down
    case Down => Up
    case Front => Back
    case Back => Front
    case Left => Right
    case Right => Left
  }

  /** X' undoes X, and X undoes X'. */
  lemma QuarterTurnsUndoEachOther(c: Cube, face: FaceName)
    ensures Turn(Turn(c, MoveOf(face, Clockwise)), MoveOf(face, Counterclockwise)) == c
    ensures Turn(Turn(c, MoveOf(face, Counterclockwise)), MoveOf(face, Clockwise)) == c
  {
  }

  /** X2 is X applied twice, and it undoes itself. */
  lemma HalfTurnIsTwoQuarterTurns(c: Cube, face: FaceName)
    ensures Turn(c, MoveOf(face, Diagonal)) == Turn(Turn(c, MoveOf(face, Clockwise)), MoveOf(face, Clockwise))
    ensures Turn(Turn(c, MoveOf(face, Diagonal)), MoveOf(face, Diagonal)) == c
  {
  }

  /** X applied four times is the identity, and X' is X applied three times. */
  lemma QuarterTurnHasOrderFour(c: Cube, face: FaceName)
    ensures var x := MoveOf(face, Clockwise);
            Turn(Turn(Turn(Turn(c, x), x), x), x) == c
    ensures var x := MoveOf(face, Clockwise);
            Turn(c, MoveOf(face, Counterclockwise)) == Turn(Turn(Turn(c, x), x), x)
  {
  }

  /** X' applied four times is the identity too. */
  lemma CounterclockwiseHasOrderFour(c: Cube, face: FaceName)
    ensures var x' := MoveOf(face, Counterclockwise);
            Turn(Turn(Turn(Turn(c, x'), x'), x'), x') == c
  {
  }

  /** X' applied twice undoes X2. */
  lemma TwoCounterclockwiseUndoHalfTurn(c: Cube, face: FaceName)
    ensures var x' := MoveOf(face, Counterclockwise);
            Turn(Turn(Turn(c, MoveOf(face, Diagonal)), x'), x') == c
  {
  }

  /** No move writes a centre facelet. */
  lemma CentresFixed(c: Cube, m: Move, name: FaceName)
    ensures Turn(c, m).At(name, 1, 1) == c.At(name, 1, 1)
  {
  }

  /** A move leaves the face opposite the turned one as it was. */
  lemma OppositeFaceUntouched(c: Cube, m: Move)
    ensures var o := Opposite(GetRotateNotationDetail(m).face);
            Turn(c, m).FaceOf(o) == c.FaceOf(o)
  {
  }

  /** 1 when the facelet has colour `col`. */
  function Ind(facelet: Color, col: Color): nat
  {
    if facelet == col then 1 else 0
  }

  /** How many facelets of a face have colour `col`. */
  function FaceCount(face: Face, col: Color): nat
  {
    Ind(face.c00, col) + Ind(face.c01, col) + Ind(face.c02, col) +
    Ind(face.c10, col) + Ind(face.c11, col) + Ind(face.c12, col) +
    Ind(face.c20, col) + Ind(face.c21, col) + Ind(face.c22, col)
  }

  /** How many of the 54 facelets have colour `col`. */
  function Count(c: Cube, col: Color): nat
  {
    FaceCount(c.u, col) + FaceCount(c.d, col) + FaceCount(c.f, col) +
    FaceCount(c.b, col) + FaceCount(c.l, col) + FaceCount(c.r, col)
  }

  /**
   * Every move only copies facelets from one place to another, so it is a
   * permutation of the 54 facelets and keeps the count of every colour.
   */
  lemma TurnKeepsColourCounts(c: Cube, m: Move, col: Color)
    ensures Count(Turn(c, m), col) == Count(c, col)
  {
    match m
    case R | R' | R2 => RightTurnsKeepColourCounts(c, m, col);
    case L | L' | L2 => LeftTurnsKeepColourCounts(c, m, col);
    case U | U' | U2 => UpTurnsKeepColourCounts(c, m, col);
    case D | D' | D2 => DownTurnsKeepColourCounts(c, m, col);
    case F | F' | F2 => FrontTurnsKeepColourCounts(c, m, col);
    case B | B' | B2 => BackTurnsKeepColourCounts(c, m, col);
  }

  /** rotateCube of no moves is the cube itself. */
  lemma ApplyNothing(c: Cube)
    ensures Apply(c, []) == c
  {
  }

  /** rotateCube is a left fold: applying `a ++ b` is applying `a`, then `b`. */
  lemma {:induction false} ApplyAppend(c: Cube, a: seq<Move>, b: seq<Move>)
    ensures Apply(c, a + b) == Apply(Apply(c, a), b)
    decreases |a|
  {
    if |a| == 0 {
      assert a + b == b;
    } else {
      assert (a + b)[0] == a[0];
      assert (a + b)[1..] == a[1..] + b;
      ApplyAppend(Turn(c, a[0]), a[1..], b);
    }
  }

  /** A single move applied through rotateCube is rotateCubeOnce. */
  lemma ApplyOne(c: Cube, m: Move)
    ensures Apply(c, [m]) == Turn(c, m)
  {
    assert [m][1..] == [];
  }

  /** Any sequence of moves keeps the count of every colour. */
  lemma {:induction false} ApplyKeepsColourCounts(c: Cube, moves: seq<Move>, col: Color)
    ensures Count(Apply(c, moves), col) == Count(c, col)
    decreases |moves|
  {
    if |moves| > 0 {
      TurnKeepsColourCounts(c, moves[0], col);
      ApplyKeepsColourCounts(Turn(c, moves[0]), moves[1..], col);
    }
  }

  /** A face of one colour counts nine of that colour and none of any other. */
  lemma UniformCount(x: Color, col: Color)
    ensures FaceCount(Uniform(x), col) == if x == col then 9 else 0
  {
  }

  /** The solved cube has nine facelets of each colour. */
  lemma SolvedHasNineOfEachColour(col: Color)
    ensures Count(Default(), col) == 9
  {
    UniformCount(White, col);
    UniformCount(Yellow, col);
    UniformCount(Green, col);
    UniformCount(Blue, col);
    UniformCount(Orange, col);
    UniformCount(Red, col);
  }

  /** Every cube reached from the solved one has nine facelets of each colour. */
  lemma ReachableHasNineOfEachColour(moves: seq<Move>, col: Color)
    ensures Count(Apply(Default(), moves), col) == 9
  {
    ApplyKeepsColourCounts(Default(), moves, col);
    SolvedHasNineOfEachColour(col);
  }

  /** The R, R' and R2 tables move facelets without changing any colour count. */
  lemma RightTurnsKeepColourCounts(c: Cube, m: Move, col: Color)
    requires m == R || m == R' || m == R2
    ensures Count(Turn(c, m), col) == Count(c, col)
  {
    match m
    case R =>
      assert Turn(c, R) == Cube(
          Face(c.u.c00, c.u.c01, c.f.c02, c.u.c10, c.u.c11, c.f.c12, c.u.c20, c.u.c21, c.f.c22),
          Face(c.d.c00, c.d.c01, c.b.c20, c.d.c10, c.d.c11, c.b.c10, c.d.c20, c.d.c21, c.b.c00),
          Face(c.f.c00, c.f.c01, c.d.c02, c.f.c10, c.f.c11, c.d.c12, c.f.c20, c.f.c21, c.d.c22),
          Face(c.u.c22, c.b.c01, c.b.c02, c.u.c12, c.b.c11, c.b.c12, c.u.c02, c.b.c21, c.b.c22),
          Face(c.l.c00, c.l.c01, c.l.c02, c.l.c10, c.l.c11, c.l.c12, c.l.c20, c.l.c21, c.l.c22),
          Face(c.r.c20, c.r.c10, c.r.c00, c.r.c21, c.r.c11, c.r.c01, c.r.c22, c.r.c12, c.r.c02));
    case R' =>
      assert Turn(c, R') == Cube(
          Face(c.u.c00, c.u.c01, c.b.c20, c.u.c10, c.u.c11, c.b.c10, c.u.c20, c.u.c21, c.b.c00),
          Face(c.d.c00, c.d.c01, c.f.c02, c.d.c10, c.d.c11, c.f.c12, c.d.c20, c.d.c21, c.f.c22),
          Face(c.f.c00, c.f.c01, c.u.c02, c.f.c10, c.f.c11, c.u.c12, c.f.c20, c.f.c21, c.u.c22),
          Face(c.d.c22, c.b.c01, c.b.c02, c.d.c12, c.b.c11, c.b.c12, c.d.c02, c.b.c21, c.b.c22),
          Face(c.l.c00, c.l.c01, c.l.c02, c.l.c10, c.l.c11, c.l.c12, c.l.c20, c.l.c21, c.l.c22),
          Face(c.r.c02, c.r.c12, c.r.c22, c.r.c01, c.r.c11, c.r.c21, c.r.c00, c.r.c10, c.r.c20));
    case R2 =>
      assert Turn(c, R2) == Cube(
          Face(c.u.c00, c.u.c01, c.d.c02, c.u.c10, c.u.c11, c.d.c12, c.u.c20, c.u.c21, c.d.c22),
          Face(c.d.c00, c.d.c01, c.u.c02, c.d.c10, c.d.c11, c.u.c12, c.d.c20, c.d.c21, c.u.c22),
          Face(c.f.c00, c.f.c01, c.b.c20, c.f.c10, c.f.c11, c.b.c10, c.f.c20, c.f.c21, c.b.c00),
          Face(c.f.c22, c.b.c01, c.b.c02, c.f.c12, c.b.c11, c.b.c12, c.f.c02, c.b.c21, c.b.c22),
          Face(c.l.c00, c.l.c01, c.l.c02, c.l.c10, c.l.c11, c.l.c12, c.l.c20, c.l.c21, c.l.c22),
          Face(c.r.c22, c.r.c21, c.r.c20, c.r.c12, c.r.c11, c.r.c10, c.r.c02, c.r.c01, c.r.c00));
  }

  /** The L, L' and L2 tables move facelets without changing any colour count. */
  lemma LeftTurnsKeepColourCounts(c: Cube, m: Move, col: Color)
    requires m == L || m == L' || m == L2
    ensures Count(Turn(c, m), col) == Count(c, col)
  {
    match m
    case L =>
      assert Turn(c, L) == Cube(
          Face(c.b.c22, c.u.c01, c.u.c02, c.b.c12, c.u.c11, c.u.c12, c.b.c02, c.u.c21, c.u.c22),
          Face(c.f.c00, c.d.c01, c.d.c02, c.f.c10, c.d.c11, c.d.c12, c.f.c20, c.d.c21, c.d.c22),
          Face(c.u.c00, c.f.c01, c.f.c02, c.u.c10, c.f.c11, c.f.c12, c.u.c20, c.f.c21, c.f.c22),
          Face(c.b.c00, c.b.c01, c.d.c20, c.b.c10, c.b.c11, c.d.c10, c.b.c20, c.b.c21, c.d.c00),
          Face(c.l.c20, c.l.c10, c.l.c00, c.l.c21, c.l.c11, c.l.c01, c.l.c22, c.l.c12, c.l.c02),
          Face(c.r.c00, c.r.c01, c.r.c02, c.r.c10, c.r.c11, c.r.c12, c.r.c20, c.r.c21, c.r.c22));
    case L' =>
      assert Turn(c, L') == Cube(
          Face(c.f.c00, c.u.c01, c.u.c02, c.f.c10, c.u.c11, c.u.c12, c.f.c20, c.u.c21, c.u.c22),
          Face(c.b.c22, c.d.c01, c.d.c02, c.b.c12, c.d.c11, c.d.c12, c.b.c02, c.d.c21, c.d.c22),
          Face(c.d.c00, c.f.c01, c.f.c02, c.d.c10, c.f.c11, c.f.c12, c.d.c20, c.f.c21, c.f.c22),
          Face(c.b.c00, c.b.c01, c.u.c20, c.b.c10, c.b.c11, c.u.c10, c.b.c20, c.b.c21, c.u.c00),
          Face(c.l.c02, c.l.c12, c.l.c22, c.l.c01, c.l.c11, c.l.c21, c.l.c00, c.l.c10, c.l.c20),
          Face(c.r.c00, c.r.c01, c.r.c02, c.r.c10, c.r.c11, c.r.c12, c.r.c20, c.r.c21, c.r.c22));
    case L2 =>
      assert Turn(c, L2) == Cube(
          Face(c.d.c00, c.u.c01, c.u.c02, c.d.c10, c.u.c11, c.u.c12, c.d.c20, c.u.c21, c.u.c22),
          Face(c.u.c00, c.d.c01, c.d.c02, c.u.c10, c.d.c11, c.d.c12, c.u.c20, c.d.c21, c.d.c22),
          Face(c.b.c22, c.f.c01, c.f.c02, c.b.c12, c.f.c11, c.f.c12, c.b.c02, c.f.c21, c.f.c22),
          Face(c.b.c00, c.b.c01, c.f.c20, c.b.c10, c.b.c11, c.f.c10, c.b.c20, c.b.c21, c.f.c00),
          Face(c.l.c22, c.l.c21, c.l.c20, c.l.c12, c.l.c11, c.l.c10, c.l.c02, c.l.c01, c.l.c00),
          Face(c.r.c00, c.r.c01, c.r.c02, c.r.c10, c.r.c11, c.r.c12, c.r.c20, c.r.c21, c.r.c22));
  }

  /** The U, U' and U2 tables move facelets without changing any colour count. */
  lemma UpTurnsKeepColourCounts(c: Cube, m: Move, col: Color)
    requires m == U || m == U' || m == U2
    ensures Count(Turn(c, m), col) == Count(c, col)
  {
    match m
    case U =>
      assert Turn(c, U) == Cube(
          Face(c.u.c20, c.u.c10, c.u.c00, c.u.c21, c.u.c11, c.u.c01, c.u.c22, c.u.c12, c.u.c02),
          Face(c.d.c00, c.d.c01, c.d.c02, c.d.c10, c.d.c11, c.d.c12, c.d.c20, c.d.c21, c.d.c22),
          Face(c.r.c00, c.r.c01, c.r.c02, c.f.c10, c.f.c11, c.f.c12, c.f.c20, c.f.c21, c.f.c22),
          Face(c.l.c00, c.l.c01, c.l.c02, c.b.c10, c.b.c11, c.b.c12, c.b.c20, c.b.c21, c.b.c22),
          Face(c.f.c00, c.f.c01, c.f.c02, c.l.c10, c.l.c11, c.l.c12, c.l.c20, c.l.c21, c.l.c22),
          Face(c.b.c00, c.b.c01, c.b.c02, c.r.c10, c.r.c11, c.r.c12, c.r.c20, c.r.c21, c.r.c22));
    case U' =>
      assert Turn(c, U') == Cube(
          Face(c.u.c02, c.u.c12, c.u.c22, c.u.c01, c.u.c11, c.u.c21, c.u.c00, c.u.c10, c.u.c20),
          Face(c.d.c00, c.d.c01, c.d.c02, c.d.c10, c.d.c11, c.d.c12, c.d.c20, c.d.c21, c.d.c22),
          Face(c.l.c00, c.l.c01, c.l.c02, c.f.c10, c.f.c11, c.f.c12, c.f.c20, c.f.c21, c.f.c22),
          Face(c.r.c00, c.r.c01, c.r.c02, c.b.c10, c.b.c11, c.b.c12, c.b.c20, c.b.c21, c.b.c22),
          Face(c.b.c00, c.b.c01, c.b.c02, c.l.c10, c.l.c11, c.l.c12, c.l.c20, c.l.c21, c.l.c22),
          Face(c.f.c00, c.f.c01, c.f.c02, c.r.c10, c.r.c11, c.r.c12, c.r.c20, c.r.c21, c.r.c22));
    case U2 =>
      assert Turn(c, U2) == Cube(
          Face(c.u.c22, c.u.c21, c.u.c20, c.u.c12, c.u.c11, c.u.c10, c.u.c02, c.u.c01, c.u.c00),
          Face(c.d.c00, c.d.c01, c.d.c02, c.d.c10, c.d.c11, c.d.c12, c.d.c20, c.d.c21, c.d.c22),
          Face(c.b.c00, c.b.c01, c.b.c02, c.f.c10, c.f.c11, c.f.c12, c.f.c20, c.f.c21, c.f.c22),
          Face(c.f.c00, c.f.c01, c.f.c02, c.b.c10, c.b.c11, c.b.c12, c.b.c20, c.b.c21, c.b.c22),
          Face(c.r.c00, c.r.c01, c.r.c02, c.l.c10, c.l.c11, c.l.c12, c.l.c20, c.l.c21, c.l.c22),
          Face(c.l.c00, c.l.c01, c.l.c02, c.r.c10, c.r.c11, c.r.c12, c.r.c20, c.r.c21, c.r.c22));
  }

  /** The D, D' and D2 tables move facelets without changing any colour count. */
  lemma DownTurnsKeepColourCounts(c: Cube, m: Move, col: Color)
    requires m == D || m == D' || m == D2
    ensures Count(Turn(c, m), col) == Count(c, col)
  {
    match m
    case D =>
      assert Turn(c, D) == Cube(
          Face(c.u.c00, c.u.c01, c.u.c02, c.u.c10, c.u.c11, c.u.c12, c.u.c20, c.u.c21, c.u.c22),
          Face(c.d.c20, c.d.c10, c.d.c00, c.d.c21, c.d.c11, c.d.c01, c.d.c22, c.d.c12, c.d.c02),
          Face(c.f.c00, c.f.c01, c.f.c02, c.f.c10, c.f.c11, c.f.c12, c.l.c20, c.l.c21, c.l.c22),
          Face(c.b.c00, c.b.c01, c.b.c02, c.b.c10, c.b.c11, c.b.c12, c.r.c20, c.r.c21, c.r.c22),
          Face(c.l.c00, c.l.c01, c.l.c02, c.l.c10, c.l.c11, c.l.c12, c.b.c20, c.b.c21, c.b.c22),
          Face(c.r.c00, c.r.c01, c.r.c02, c.r.c10, c.r.c11, c.r.c12, c.f.c20, c.f.c21, c.f.c22));
    case D' =>
      assert Turn(c, D') == Cube(
          Face(c.u.c00, c.u.c01, c.u.c02, c.u.c10, c.u.c11, c.u.c12, c.u.c20, c.u.c21, c.u.c22),
          Face(c.d.c02, c.d.c12, c.d.c22, c.d.c01, c.d.c11, c.d.c21, c.d.c00, c.d.c10, c.d.c20),
          Face(c.f.c00, c.f.c01, c.f.c02, c.f.c10, c.f.c11, c.f.c12, c.r.c20, c.r.c21, c.r.c22),
          Face(c.b.c00, c.b.c01, c.b.c02, c.b.c10, c.b.c11, c.b.c12, c.l.c20, c.l.c21, c.l.c22),
          Face(c.l.c00, c.l.c01, c.l.c02, c.l.c10, c.l.c11, c.l.c12, c.f.c20, c.f.c21, c.f.c22),
          Face(c.r.c00, c.r.c01, c.r.c02, c.r.c10, c.r.c11, c.r.c12, c.b.c20, c.b.c21, c.b.c22));
    case D2 =>
      assert Turn(c, D2) == Cube(
          Face(c.u.c00, c.u.c01, c.u.c02, c.u.c10, c.u.c11, c.u.c12, c.u.c20, c.u.c21, c.u.c22),
          Face(c.d.c22, c.d.c21, c.d.c20, c.d.c12, c.d.c11, c.d.c10, c.d.c02, c.d.c01, c.d.c00),
          Face(c.f.c00, c.f.c01, c.f.c02, c.f.c10, c.f.c11, c.f.c12, c.b.c20, c.b.c21, c.b.c22),
          Face(c.b.c00, c.b.c01, c.b.c02, c.b.c10, c.b.c11, c.b.c12, c.f.c20, c.f.c21, c.f.c22),
          Face(c.l.c00, c.l.c01, c.l.c02, c.l.c10, c.l.c11, c.l.c12, c.r.c20, c.r.c21, c.r.c22),
          Face(c.r.c00, c.r.c01, c.r.c02, c.r.c10, c.r.c11, c.r.c12, c.l.c20, c.l.c21, c.l.c22));
  }

  /** The F, F' and F2 tables move facelets without changing any colour count. */
  lemma FrontTurnsKeepColourCounts(c: Cube, m: Move, col: Color)
    requires m == F || m == F' || m == F2
    ensures Count(Turn(c, m), col) == Count(c, col)
  {
    match m
    case F =>
      assert Turn(c, F) == Cube(
          Face(c.u.c00, c.u.c01, c.u.c02, c.u.c10, c.u.c11, c.u.c12, c.l.c22, c.l.c12, c.l.c02),
          Face(c.r.c20, c.r.c10, c.r.c00, c.d.c10, c.d.c11, c.d.c12, c.d.c20, c.d.c21, c.d.c22),
          Face(c.f.c20, c.f.c10, c.f.c00, c.f.c21, c.f.c11, c.f.c01, c.f.c22, c.f.c12, c.f.c02),
          Face(c.b.c00, c.b.c01, c.b.c02, c.b.c10, c.b.c11, c.b.c12, c.b.c20, c.b.c21, c.b.c22),
          Face(c.l.c00, c.l.c01, c.d.c00, c.l.c10, c.l.c11, c.d.c01, c.l.c20, c.l.c21, c.d.c02),
          Face(c.u.c20, c.r.c01, c.r.c02, c.u.c21, c.r.c11, c.r.c12, c.u.c22, c.r.c21, c.r.c22));
    case F' =>
      assert Turn(c, F') == Cube(
          Face(c.u.c00, c.u.c01, c.u.c02, c.u.c10, c.u.c11, c.u.c12, c.r.c00, c.r.c10, c.r.c20),
          Face(c.l.c02, c.l.c12, c.l.c22, c.d.c10, c.d.c11, c.d.c12, c.d.c20, c.d.c21, c.d.c22),
          Face(c.f.c02, c.f.c12, c.f.c22, c.f.c01, c.f.c11, c.f.c21, c.f.c00, c.f.c10, c.f.c20),
          Face(c.b.c00, c.b.c01, c.b.c02, c.b.c10, c.b.c11, c.b.c12, c.b.c20, c.b.c21, c.b.c22),
          Face(c.l.c00, c.l.c01, c.u.c22, c.l.c10, c.l.c11, c.u.c21, c.l.c20, c.l.c21, c.u.c20),
          Face(c.d.c02, c.r.c01, c.r.c02, c.d.c01, c.r.c11, c.r.c12, c.d.c00, c.r.c21, c.r.c22));
    case F2 =>
      assert Turn(c, F2) == Cube(
          Face(c.u.c00, c.u.c01, c.u.c02, c.u.c10, c.u.c11, c.u.c12, c.d.c02, c.d.c01, c.d.c00),
          Face(c.u.c22, c.u.c21, c.u.c20, c.d.c10, c.d.c11, c.d.c12, c.d.c20, c.d.c21, c.d.c22),
          Face(c.f.c22, c.f.c21, c.f.c20, c.f.c12, c.f.c11, c.f.c10, c.f.c02, c.f.c01, c.f.c00),
          Face(c.b.c00, c.b.c01, c.b.c02, c.b.c10, c.b.c11, c.b.c12, c.b.c20, c.b.c21, c.b.c22),
          Face(c.l.c00, c.l.c01, c.r.c20, c.l.c10, c.l.c11, c.r.c10, c.l.c20, c.l.c21, c.r.c00),
          Face(c.l.c22, c.r.c01, c.r.c02, c.l.c12, c.r.c11, c.r.c12, c.l.c02, c.r.c21, c.r.c22));
  }

  /** The B, B' and B2 tables move facelets without changing any colour count. */
  lemma BackTurnsKeepColourCounts(c: Cube, m: Move, col: Color)
    requires m == B || m == B' || m == B2
    ensures Count(Turn(c, m), col) == Count(c, col)
  {
    match m
    case B =>
      assert Turn(c, B) == Cube(
          Face(c.r.c02, c.r.c12, c.r.c22, c.u.c10, c.u.c11, c.u.c12, c.u.c20, c.u.c21, c.u.c22),
          Face(c.d.c00, c.d.c01, c.d.c02, c.d.c10, c.d.c11, c.d.c12, c.l.c00, c.l.c10, c.l.c20),
          Face(c.f.c00, c.f.c01, c.f.c02, c.f.c10, c.f.c11, c.f.c12, c.f.c20, c.f.c21, c.f.c22),
          Face(c.b.c20, c.b.c10, c.b.c00, c.b.c21, c.b.c11, c.b.c01, c.b.c22, c.b.c12, c.b.c02),
          Face(c.u.c02, c.l.c01, c.l.c02, c.u.c01, c.l.c11, c.l.c12, c.u.c00, c.l.c21, c.l.c22),
          Face(c.r.c00, c.r.c01, c.d.c22, c.r.c10, c.r.c11, c.d.c21, c.r.c20, c.r.c21, c.d.c20));
    case B' =>
      assert Turn(c, B') == Cube(
          Face(c.l.c20, c.l.c10, c.l.c00, c.u.c10, c.u.c11, c.u.c12, c.u.c20, c.u.c21, c.u.c22),
          Face(c.d.c00, c.d.c01, c.d.c02, c.d.c10, c.d.c11, c.d.c12, c.r.c22, c.r.c12, c.r.c02),
          Face(c.f.c00, c.f.c01, c.f.c02, c.f.c10, c.f.c11, c.f.c12, c.f.c20, c.f.c21, c.f.c22),
          Face(c.b.c02, c.b.c12, c.b.c22, c.b.c01, c.b.c11, c.b.c21, c.b.c00, c.b.c10, c.b.c20),
          Face(c.d.c20, c.l.c01, c.l.c02, c.d.c21, c.l.c11, c.l.c12, c.d.c22, c.l.c21, c.l.c22),
          Face(c.r.c00, c.r.c01, c.u.c00, c.r.c10, c.r.c11, c.u.c01, c.r.c20, c.r.c21, c.u.c02));
    case B2 =>
      assert Turn(c, B2) == Cube(
          Face(c.d.c22, c.d.c21, c.d.c20, c.u.c10, c.u.c11, c.u.c12, c.u.c20, c.u.c21, c.u.c22),
          Face(c.d.c00, c.d.c01, c.d.c02, c.d.c10, c.d.c11, c.d.c12, c.u.c02, c.u.c01, c.u.c00),
          Face(c.f.c00, c.f.c01, c.f.c02, c.f.c10, c.f.c11, c.f.c12, c.f.c20, c.f.c21, c.f.c22),
          Face(c.b.c22, c.b.c21, c.b.c20, c.b.c12, c.b.c11, c.b.c10, c.b.c02, c.b.c01, c.b.c00),
          Face(c.r.c22, c.l.c01, c.l.c02, c.r.c12, c.l.c11, c.l.c12, c.r.c02, c.l.c21, c.l.c22),
          Face(c.r.c00, c.r.c01, c.l.c20, c.r.c10, c.r.c11, c.l.c10, c.r.c20, c.r.c21, c.l.c00));
  }
}
