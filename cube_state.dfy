/**
 * The cube as a value: six faces of nine facelets each, the solved cube,
 * the facelet order used by the iterator and the codec, and the 18 moves
 * as permutations of facelets.
 */
module CubeState {
  import opened FaceColor
  import opened MoveNotation

  /** A row or column number of a face; `at` takes the row first. */
  type Index = i: int | 0 <= i < 3

  /** One face; cell `cYX` is row Y, column X. */
  datatype Face = Face(
    c00: Color, c01: Color, c02: Color,
    c10: Color, c11: Color, c12: Color,
    c20: Color, c21: Color, c22: Color)
  {
    /** The facelet in row `y`, column `x`. */
    function At(y: Index, x: Index): Color
    {
      match (y, x)
      case (0, 0) => c00 case (0, 1) => c01 case (0, 2) => c02
      case (1, 0) => c10 case (1, 1) => c11 case (1, 2) => c12
      case (2, 0) => c20 case (2, 1) => c21 case (2, 2) => c22
    }

    /** The nine facelets row by row, as `flat` lays them out. */
    function Cells(): (s: seq<Color>)
      ensures |s| == 9
      ensures forall y: Index, x: Index :: s[3 * y + x] == At(y, x)
    {
      [c00, c01, c02, c10, c11, c12, c20, c21, c22]
    }
  }

  /** A face of one colour. */
  function Uniform(c: Color): (face: Face)
    ensures forall y: Index, x: Index :: face.At(y, x) == c
  {
    Face(c, c, c, c, c, c, c, c, c)
  }

  /** The six faces U, D, F, B, L, R. */
  datatype Cube = Cube(u: Face, d: Face, f: Face, b: Face, l: Face, r: Face)
  {
    /** `cubeState[name]`. */
    function FaceOf(name: FaceName): Face
    {
      match name
      case Up => u
      case Down => d
      case Front => f
      case Back => b
      case Left => l
      case Right => r
    }

    /** `at(faceName, y, x)`: row `y`, column `x` of the named face. */
    function At(name: FaceName, y: Index, x: Index): Color
    {
      FaceOf(name).At(y, x)
    }
  }

  /** The solved cube: U white, D yellow, F green, B blue, L orange, R red. */
  function Default(): (c: Cube)
    ensures forall y: Index, x: Index ::
      c.At(Up, y, x) == White && c.At(Down, y, x) == Yellow &&
      c.At(Front, y, x) == Green && c.At(Back, y, x) == Blue &&
      c.At(Left, y, x) == Orange && c.At(Right, y, x) == Red
  {
    Cube(Uniform(White), Uniform(Yellow), Uniform(Green), Uniform(Blue), Uniform(Orange), Uniform(Red))
  }

  /** The order in which the iterator yields the faces. */
  const FaceOrder: seq<FaceName> := [Up, Down, Front, Back, Left, Right]

  /** `[Symbol.iterator]`: the faces in the order U, D, F, B, L, R. */
  function Faces(c: Cube): (s: seq<Face>)
    ensures |s| == 6
    ensures forall k :: 0 <= k < 6 ==> s[k] == c.FaceOf(FaceOrder[k])
  {
    [c.u, c.d, c.f, c.b, c.l, c.r]
  }

  /** The 54 facelets: the faces in iterator order, each row by row. */
  function Facelets(c: Cube): (s: seq<Color>)
    ensures |s| == 54
    ensures forall k :: 0 <= k < 6 ==> s[9 * k..9 * k + 9] == c.FaceOf(FaceOrder[k]).Cells()
  {
    var s := c.u.Cells() + c.d.Cells() + c.f.Cells() + c.b.Cells() + c.l.Cells() + c.r.Cells();
    NineEach(c.u.Cells(), c.d.Cells(), c.f.Cells(), c.b.Cells(), c.l.Cells(), c.r.Cells());
    s
  }

  /** Six runs of nine, concatenated: run `k` is the slice from `9 * k`. */
  lemma NineEach(a: seq<Color>, b: seq<Color>, c: seq<Color>, d: seq<Color>, e: seq<Color>, f: seq<Color>)
    requires |a| == 9 && |b| == 9 && |c| == 9 && |d| == 9 && |e| == 9 && |f| == 9
    ensures forall k :: 0 <= k < 6 ==> (a + b + c + d + e + f)[9 * k..9 * k + 9] == [a, b, c, d, e, f][k]
  {
    var s := a + b + c + d + e + f;
    forall k | 0 <= k < 6
      ensures s[9 * k..9 * k + 9] == [a, b, c, d, e, f][k]
    {
      if k == 0 { assert s[0..9] == a; }
      else if k == 1 { assert s[9..18] == b; }
      else if k == 2 { assert s[18..27] == c; }
      else if k == 3 { assert s[27..36] == d; }
      else if k == 4 { assert s[36..45] == e; }
      else { assert s[45..54] == f; }
    }
  }

  /** Facelet `9 * k + 3 * y + x` is row `y`, column `x` of the `k`-th face. */
  lemma FaceletAt(c: Cube, k: nat, y: Index, x: Index)
    requires k < 6
    ensures Facelets(c)[9 * k + 3 * y + x] == c.At(FaceOrder[k], y, x)
  {
    var s := Facelets(c);
    assert s[9 * k..9 * k + 9][3 * y + x] == s[9 * k + 3 * y + x];
  }

  /** Nine facelets, row by row, as a face. */
  function FaceFrom(s: seq<Color>): (face: Face)
    requires |s| == 9
    ensures face.Cells() == s
  {
    Face(s[0], s[1], s[2], s[3], s[4], s[5], s[6], s[7], s[8])
  }

  /** 54 facelets in iterator order reshaped into the six faces. */
  function FromFacelets(s: seq<Color>): (c: Cube)
    requires |s| == 54
    ensures Facelets(c) == s
  {
    Cube(FaceFrom(s[0..9]), FaceFrom(s[9..18]), FaceFrom(s[18..27]),
         FaceFrom(s[27..36]), FaceFrom(s[36..45]), FaceFrom(s[45..54]))
  }

  /** Reshaping the flattened facelets gives the cube back. */
  lemma FromFaceletsOfFacelets(c: Cube)
    ensures FromFacelets(Facelets(c)) == c
  {
    var s := Facelets(c);
    assert s[0..9] == c.u.Cells() && s[9..18] == c.d.Cells() && s[18..27] == c.f.Cells();
    assert s[27..36] == c.b.Cells() && s[36..45] == c.l.Cells() && s[45..54] == c.r.Cells();
  }

  /**
   * rotateCubeOnce, as a value: each move copies fixed facelets of the
   * old cube into fixed facelets of the new one and keeps all others.
   */
  function Turn(c: Cube, m: Move): (r: Cube)
    ensures r.u.c11 == c.u.c11 && r.d.c11 == c.d.c11 && r.f.c11 == c.f.c11
    ensures r.b.c11 == c.b.c11 && r.l.c11 == c.l.c11 && r.r.c11 == c.r.c11
  {
    match m
    case R =>
      c.(
        u := c.u.(c02 := c.f.c02, c12 := c.f.c12, c22 := c.f.c22),
        d := c.d.(c02 := c.b.c20, c12 := c.b.c10, c22 := c.b.c00),
        f := c.f.(c02 := c.d.c02, c12 := c.d.c12, c22 := c.d.c22),
        b := c.b.(c20 := c.u.c02, c10 := c.u.c12, c00 := c.u.c22),
        r := c.r.(c00 := c.r.c20, c01 := c.r.c10, c02 := c.r.c00, c10 := c.r.c21, c12 := c.r.c01, c20 := c.r.c22, c21 := c.r.c12, c22 := c.r.c02))
    case R' =>
      c.(
        u := c.u.(c02 := c.b.c20, c12 := c.b.c10, c22 := c.b.c00),
        d := c.d.(c02 := c.f.c02, c12 := c.f.c12, c22 := c.f.c22),
        f := c.f.(c02 := c.u.c02, c12 := c.u.c12, c22 := c.u.c22),
        b := c.b.(c20 := c.d.c02, c10 := c.d.c12, c00 := c.d.c22),
        r := c.r.(c00 := c.r.c02, c01 := c.r.c12, c02 := c.r.c22, c10 := c.r.c01, c12 := c.r.c21, c20 := c.r.c00, c21 := c.r.c10, c22 := c.r.c20))
    case R2 =>
      c.(
        u := c.u.(c02 := c.d.c02, c12 := c.d.c12, c22 := c.d.c22),
        d := c.d.(c02 := c.u.c02, c12 := c.u.c12, c22 := c.u.c22),
        f := c.f.(c02 := c.b.c20, c12 := c.b.c10, c22 := c.b.c00),
        b := c.b.(c20 := c.f.c02, c10 := c.f.c12, c00 := c.f.c22),
        r := c.r.(c00 := c.r.c22, c01 := c.r.c21, c02 := c.r.c20, c10 := c.r.c12, c12 := c.r.c10, c20 := c.r.c02, c21 := c.r.c01, c22 := c.r.c00))
    case L =>
      c.(
        u := c.u.(c00 := c.b.c22, c10 := c.b.c12, c20 := c.b.c02),
        d := c.d.(c00 := c.f.c00, c10 := c.f.c10, c20 := c.f.c20),
        f := c.f.(c00 := c.u.c00, c10 := c.u.c10, c20 := c.u.c20),
        b := c.b.(c22 := c.d.c00, c12 := c.d.c10, c02 := c.d.c20),
        l := c.l.(c00 := c.l.c20, c01 := c.l.c10, c02 := c.l.c00, c10 := c.l.c21, c12 := c.l.c01, c20 := c.l.c22, c21 := c.l.c12, c22 := c.l.c02))
    case L' =>
      c.(
        u := c.u.(c00 := c.f.c00, c10 := c.f.c10, c20 := c.f.c20),
        d := c.d.(c00 := c.b.c22, c10 := c.b.c12, c20 := c.b.c02),
        f := c.f.(c00 := c.d.c00, c10 := c.d.c10, c20 := c.d.c20),
        b := c.b.(c22 := c.u.c00, c12 := c.u.c10, c02 := c.u.c20),
        l := c.l.(c00 := c.l.c02, c01 := c.l.c12, c02 := c.l.c22, c10 := c.l.c01, c12 := c.l.c21, c20 := c.l.c00, c21 := c.l.c10, c22 := c.l.c20))
    case L2 =>
      c.(
        u := c.u.(c00 := c.d.c00, c10 := c.d.c10, c20 := c.d.c20),
        d := c.d.(c00 := c.u.c00, c10 := c.u.c10, c20 := c.u.c20),
        f := c.f.(c00 := c.b.c22, c10 := c.b.c12, c20 := c.b.c02),
        b := c.b.(c22 := c.f.c00, c12 := c.f.c10, c02 := c.f.c20),
        l := c.l.(c00 := c.l.c22, c01 := c.l.c21, c02 := c.l.c20, c10 := c.l.c12, c12 := c.l.c10, c20 := c.l.c02, c21 := c.l.c01, c22 := c.l.c00))
    case U =>
      c.(
        u := c.u.(c00 := c.u.c20, c01 := c.u.c10, c02 := c.u.c00, c10 := c.u.c21, c12 := c.u.c01, c20 := c.u.c22, c21 := c.u.c12, c22 := c.u.c02),
        f := c.f.(c00 := c.r.c00, c01 := c.r.c01, c02 := c.r.c02),
        b := c.b.(c00 := c.l.c00, c01 := c.l.c01, c02 := c.l.c02),
        l := c.l.(c00 := c.f.c00, c01 := c.f.c01, c02 := c.f.c02),
        r := c.r.(c00 := c.b.c00, c01 := c.b.c01, c02 := c.b.c02))
    case U' =>
      c.(
        u := c.u.(c00 := c.u.c02, c01 := c.u.c12, c02 := c.u.c22, c10 := c.u.c01, c12 := c.u.c21, c20 := c.u.c00, c21 := c.u.c10, c22 := c.u.c20),
        f := c.f.(c00 := c.l.c00, c01 := c.l.c01, c02 := c.l.c02),
        b := c.b.(c00 := c.r.c00, c01 := c.r.c01, c02 := c.r.c02),
        l := c.l.(c00 := c.b.c00, c01 := c.b.c01, c02 := c.b.c02),
        r := c.r.(c00 := c.f.c00, c01 := c.f.c01, c02 := c.f.c02))
    case U2 =>
      c.(
        u := c.u.(c00 := c.u.c22, c01 := c.u.c21, c02 := c.u.c20, c10 := c.u.c12, c12 := c.u.c10, c20 := c.u.c02, c21 := c.u.c01, c22 := c.u.c00),
        f := c.f.(c00 := c.b.c00, c01 := c.b.c01, c02 := c.b.c02),
        b := c.b.(c00 := c.f.c00, c01 := c.f.c01, c02 := c.f.c02),
        l := c.l.(c00 := c.r.c00, c01 := c.r.c01, c02 := c.r.c02),
        r := c.r.(c00 := c.l.c00, c01 := c.l.c01, c02 := c.l.c02))
    case D =>
      c.(
        d := c.d.(c00 := c.d.c20, c01 := c.d.c10, c02 := c.d.c00, c10 := c.d.c21, c12 := c.d.c01, c20 := c.d.c22, c21 := c.d.c12, c22 := c.d.c02),
        f := c.f.(c20 := c.l.c20, c21 := c.l.c21, c22 := c.l.c22),
        b := c.b.(c20 := c.r.c20, c21 := c.r.c21, c22 := c.r.c22),
        l := c.l.(c20 := c.b.c20, c21 := c.b.c21, c22 := c.b.c22),
        r := c.r.(c20 := c.f.c20, c21 := c.f.c21, c22 := c.f.c22))
    case D' =>
      c.(
        d := c.d.(c00 := c.d.c02, c01 := c.d.c12, c02 := c.d.c22, c10 := c.d.c01, c12 := c.d.c21, c20 := c.d.c00, c21 := c.d.c10, c22 := c.d.c20),
        f := c.f.(c20 := c.r.c20, c21 := c.r.c21, c22 := c.r.c22),
        b := c.b.(c20 := c.l.c20, c21 := c.l.c21, c22 := c.l.c22),
        l := c.l.(c20 := c.f.c20, c21 := c.f.c21, c22 := c.f.c22),
        r := c.r.(c20 := c.b.c20, c21 := c.b.c21, c22 := c.b.c22))
    case D2 =>
      c.(
        d := c.d.(c00 := c.d.c22, c01 := c.d.c21, c02 := c.d.c20, c10 := c.d.c12, c12 := c.d.c10, c20 := c.d.c02, c21 := c.d.c01, c22 := c.d.c00),
        f := c.f.(c20 := c.b.c20, c21 := c.b.c21, c22 := c.b.c22),
        b := c.b.(c20 := c.f.c20, c21 := c.f.c21, c22 := c.f.c22),
        l := c.l.(c20 := c.r.c20, c21 := c.r.c21, c22 := c.r.c22),
        r := c.r.(c20 := c.l.c20, c21 := c.l.c21, c22 := c.l.c22))
    case F =>
      c.(
        u := c.u.(c22 := c.l.c02, c21 := c.l.c12, c20 := c.l.c22),
        d := c.d.(c00 := c.r.c20, c01 := c.r.c10, c02 := c.r.c00),
        f := c.f.(c00 := c.f.c20, c01 := c.f.c10, c02 := c.f.c00, c10 := c.f.c21, c12 := c.f.c01, c20 := c.f.c22, c21 := c.f.c12, c22 := c.f.c02),
        l := c.l.(c22 := c.d.c02, c12 := c.d.c01, c02 := c.d.c00),
        r := c.r.(c00 := c.u.c20, c10 := c.u.c21, c20 := c.u.c22))
    case F' =>
      c.(
        u := c.u.(c22 := c.r.c20, c21 := c.r.c10, c20 := c.r.c00),
        d := c.d.(c00 := c.l.c02, c01 := c.l.c12, c02 := c.l.c22),
        f := c.f.(c00 := c.f.c02, c01 := c.f.c12, c02 := c.f.c22, c10 := c.f.c01, c12 := c.f.c21, c20 := c.f.c00, c21 := c.f.c10, c22 := c.f.c20),
        l := c.l.(c22 := c.u.c20, c12 := c.u.c21, c02 := c.u.c22),
        r := c.r.(c00 := c.d.c02, c10 := c.d.c01, c20 := c.d.c00))
    case F2 =>
      c.(
        u := c.u.(c22 := c.d.c00, c21 := c.d.c01, c20 := c.d.c02),
        d := c.d.(c00 := c.u.c22, c01 := c.u.c21, c02 := c.u.c20),
        f := c.f.(c00 := c.f.c22, c01 := c.f.c21, c02 := c.f.c20, c10 := c.f.c12, c12 := c.f.c10, c20 := c.f.c02, c21 := c.f.c01, c22 := c.f.c00),
        l := c.l.(c22 := c.r.c00, c12 := c.r.c10, c02 := c.r.c20),
        r := c.r.(c00 := c.l.c22, c10 := c.l.c12, c20 := c.l.c02))
    case B =>
      c.(
        u := c.u.(c00 := c.r.c02, c01 := c.r.c12, c02 := c.r.c22),
        d := c.d.(c22 := c.l.c20, c21 := c.l.c10, c20 := c.l.c00),
        b := c.b.(c00 := c.b.c20, c01 := c.b.c10, c02 := c.b.c00, c10 := c.b.c21, c12 := c.b.c01, c20 := c.b.c22, c21 := c.b.c12, c22 := c.b.c02),
        l := c.l.(c00 := c.u.c02, c10 := c.u.c01, c20 := c.u.c00),
        r := c.r.(c22 := c.d.c20, c12 := c.d.c21, c02 := c.d.c22))
    case B' =>
      c.(
        u := c.u.(c00 := c.l.c20, c01 := c.l.c10, c02 := c.l.c00),
        d := c.d.(c22 := c.r.c02, c21 := c.r.c12, c20 := c.r.c22),
        b := c.b.(c00 := c.b.c02, c01 := c.b.c12, c02 := c.b.c22, c10 := c.b.c01, c12 := c.b.c21, c20 := c.b.c00, c21 := c.b.c10, c22 := c.b.c20),
        l := c.l.(c00 := c.d.c20, c10 := c.d.c21, c20 := c.d.c22),
        r := c.r.(c22 := c.u.c02, c12 := c.u.c01, c02 := c.u.c00))
    case B2 =>
      c.(
        u := c.u.(c00 := c.d.c22, c01 := c.d.c21, c02 := c.d.c20),
        d := c.d.(c22 := c.u.c00, c21 := c.u.c01, c20 := c.u.c02),
        b := c.b.(c00 := c.b.c22, c01 := c.b.c21, c02 := c.b.c20, c10 := c.b.c12, c12 := c.b.c10, c20 := c.b.c02, c21 := c.b.c01, c22 := c.b.c00),
        l := c.l.(c00 := c.r.c22, c10 := c.r.c12, c20 := c.r.c02),
        r := c.r.(c22 := c.l.c00, c12 := c.l.c10, c02 := c.l.c20))
  }

  /** rotateCube: the moves applied one after another, starting from `c`. */
  function Apply(c: Cube, moves: seq<Move>): Cube
    decreases |moves|
  {
    if |moves| == 0 then c else Apply(Turn(c, moves[0]), moves[1..])
  }
}
