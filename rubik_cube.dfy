/**
 * The cube object. Its state is a field the object's methods reassign; moves
 * never touch the receiver: rotateCubeOnce clones it and then overwrites
 * facelets of the clone one source line at a time.
 */
module RubikCubeClass {
  import opened FaceColor
  import opened MoveNotation
  import opened CubeState
  import MoveEngine
  import Helper
  import opened Wrappers

  class RubikCube {
    /** The six faces, each three rows of three facelets. */
    var cubeState: Cube

    /** A cube object holding the given faces. */
    constructor (cubeState: Cube)
      ensures this.cubeState == cubeState
    {
      this.cubeState := cubeState;
    }

    /** default(): the solved cube. */
    static method Default() returns (cube: RubikCube)
      ensures fresh(cube)
      ensures cube.cubeState == CubeState.Default()
    {
      cube := new RubikCube(CubeState.Default());
    }

    /** clone(): a copy that shares no state with the receiver. */
    method Clone() returns (cloned: RubikCube)
      ensures fresh(cloned)
      ensures cloned.cubeState == cubeState
    {
      cloned := new RubikCube(cubeState);
    }

    /** at(faceName, y, x): row `y`, column `x` of the named face. */
    function At(name: FaceName, y: Index, x: Index): (color: Color)
      reads this
      ensures color == cubeState.FaceOf(name).Cells()[3 * y + x]
    {
      cubeState.At(name, y, x)
    }

    /**
     * rotateCubeOnce(move): clones the receiver, then copies the facelets
     * the move carries from the receiver into the clone. The receiver is
     * left as it was and the result is the turned cube.
     */
    method RotateCubeOnce(move: Move) returns (clonedCube: RubikCube)
      ensures fresh(clonedCube)
      ensures clonedCube.cubeState == Turn(cubeState, move)
    {
      clonedCube := Clone();
      match move
      case R =>
        clonedCube.cubeState := clonedCube.cubeState.(u := clonedCube.cubeState.u.(c02 := cubeState.f.c02, c12 := cubeState.f.c12, c22 := cubeState.f.c22));
        clonedCube.cubeState := clonedCube.cubeState.(f := clonedCube.cubeState.f.(c02 := cubeState.d.c02, c12 := cubeState.d.c12, c22 := cubeState.d.c22));
        clonedCube.cubeState := clonedCube.cubeState.(d := clonedCube.cubeState.d.(c02 := cubeState.b.c20, c12 := cubeState.b.c10, c22 := cubeState.b.c00));
        clonedCube.cubeState := clonedCube.cubeState.(b := clonedCube.cubeState.b.(c20 := cubeState.u.c02, c10 := cubeState.u.c12, c00 := cubeState.u.c22));
        clonedCube.cubeState := clonedCube.cubeState.(r := clonedCube.cubeState.r.(c00 := cubeState.r.c20, c01 := cubeState.r.c10, c02 := cubeState.r.c00));
        clonedCube.cubeState := clonedCube.cubeState.(r := clonedCube.cubeState.r.(c10 := cubeState.r.c21, c12 := cubeState.r.c01));
        clonedCube.cubeState := clonedCube.cubeState.(r := clonedCube.cubeState.r.(c20 := cubeState.r.c22, c21 := cubeState.r.c12, c22 := cubeState.r.c02));
      case R' =>
        clonedCube.cubeState := clonedCube.cubeState.(u := clonedCube.cubeState.u.(c02 := cubeState.b.c20, c12 := cubeState.b.c10, c22 := cubeState.b.c00));
        clonedCube.cubeState := clonedCube.cubeState.(f := clonedCube.cubeState.f.(c02 := cubeState.u.c02, c12 := cubeState.u.c12, c22 := cubeState.u.c22));
        clonedCube.cubeState := clonedCube.cubeState.(d := clonedCube.cubeState.d.(c02 := cubeState.f.c02, c12 := cubeState.f.c12, c22 := cubeState.f.c22));
        clonedCube.cubeState := clonedCube.cubeState.(b := clonedCube.cubeState.b.(c20 := cubeState.d.c02, c10 := cubeState.d.c12, c00 := cubeState.d.c22));
        clonedCube.cubeState := clonedCube.cubeState.(r := clonedCube.cubeState.r.(c00 := cubeState.r.c02, c01 := cubeState.r.c12, c02 := cubeState.r.c22));
        clonedCube.cubeState := clonedCube.cubeState.(r := clonedCube.cubeState.r.(c10 := cubeState.r.c01, c12 := cubeState.r.c21));
        clonedCube.cubeState := clonedCube.cubeState.(r := clonedCube.cubeState.r.(c20 := cubeState.r.c00, c21 := cubeState.r.c10, c22 := cubeState.r.c20));
      case R2 =>
        clonedCube.cubeState := clonedCube.cubeState.(u := clonedCube.cubeState.u.(c02 := cubeState.d.c02, c12 := cubeState.d.c12, c22 := cubeState.d.c22));
        clonedCube.cubeState := clonedCube.cubeState.(f := clonedCube.cubeState.f.(c02 := cubeState.b.c20, c12 := cubeState.b.c10, c22 := cubeState.b.c00));
        clonedCube.cubeState := clonedCube.cubeState.(d := clonedCube.cubeState.d.(c02 := cubeState.u.c02, c12 := cubeState.u.c12, c22 := cubeState.u.c22));
        clonedCube.cubeState := clonedCube.cubeState.(b := clonedCube.cubeState.b.(c20 := cubeState.f.c02, c10 := cubeState.f.c12, c00 := cubeState.f.c22));
        clonedCube.cubeState := clonedCube.cubeState.(r := clonedCube.cubeState.r.(c00 := cubeState.r.c22, c01 := cubeState.r.c21, c02 := cubeState.r.c20));
        clonedCube.cubeState := clonedCube.cubeState.(r := clonedCube.cubeState.r.(c10 := cubeState.r.c12, c12 := cubeState.r.c10));
        clonedCube.cubeState := clonedCube.cubeState.(r := clonedCube.cubeState.r.(c20 := cubeState.r.c02, c21 := cubeState.r.c01, c22 := cubeState.r.c00));
      case L =>
        clonedCube.cubeState := clonedCube.cubeState.(u := clonedCube.cubeState.u.(c00 := cubeState.b.c22, c10 := cubeState.b.c12, c20 := cubeState.b.c02));
        clonedCube.cubeState := clonedCube.cubeState.(b := clonedCube.cubeState.b.(c22 := cubeState.d.c00, c12 := cubeState.d.c10, c02 := cubeState.d.c20));
        clonedCube.cubeState := clonedCube.cubeState.(d := clonedCube.cubeState.d.(c00 := cubeState.f.c00, c10 := cubeState.f.c10, c20 := cubeState.f.c20));
        clonedCube.cubeState := clonedCube.cubeState.(f := clonedCube.cubeState.f.(c00 := cubeState.u.c00, c10 := cubeState.u.c10, c20 := cubeState.u.c20));
        clonedCube.cubeState := clonedCube.cubeState.(l := clonedCube.cubeState.l.(c00 := cubeState.l.c20, c01 := cubeState.l.c10, c02 := cubeState.l.c00));
        clonedCube.cubeState := clonedCube.cubeState.(l := clonedCube.cubeState.l.(c10 := cubeState.l.c21, c12 := cubeState.l.c01));
        clonedCube.cubeState := clonedCube.cubeState.(l := clonedCube.cubeState.l.(c20 := cubeState.l.c22, c21 := cubeState.l.c12, c22 := cubeState.l.c02));
      case L' =>
        clonedCube.cubeState := clonedCube.cubeState.(u := clonedCube.cubeState.u.(c00 := cubeState.f.c00, c10 := cubeState.f.c10, c20 := cubeState.f.c20));
        clonedCube.cubeState := clonedCube.cubeState.(b := clonedCube.cubeState.b.(c22 := cubeState.u.c00, c12 := cubeState.u.c10, c02 := cubeState.u.c20));
        clonedCube.cubeState := clonedCube.cubeState.(d := clonedCube.cubeState.d.(c00 := cubeState.b.c22, c10 := cubeState.b.c12, c20 := cubeState.b.c02));
        clonedCube.cubeState := clonedCube.cubeState.(f := clonedCube.cubeState.f.(c00 := cubeState.d.c00, c10 := cubeState.d.c10, c20 := cubeState.d.c20));
        clonedCube.cubeState := clonedCube.cubeState.(l := clonedCube.cubeState.l.(c00 := cubeState.l.c02, c01 := cubeState.l.c12, c02 := cubeState.l.c22));
        clonedCube.cubeState := clonedCube.cubeState.(l := clonedCube.cubeState.l.(c10 := cubeState.l.c01, c12 := cubeState.l.c21));
        clonedCube.cubeState := clonedCube.cubeState.(l := clonedCube.cubeState.l.(c20 := cubeState.l.c00, c21 := cubeState.l.c10, c22 := cubeState.l.c20));
      case L2 =>
        clonedCube.cubeState := clonedCube.cubeState.(u := clonedCube.cubeState.u.(c00 := cubeState.d.c00, c10 := cubeState.d.c10, c20 := cubeState.d.c20));
        clonedCube.cubeState := clonedCube.cubeState.(b := clonedCube.cubeState.b.(c22 := cubeState.f.c00, c12 := cubeState.f.c10, c02 := cubeState.f.c20));
        clonedCube.cubeState := clonedCube.cubeState.(d := clonedCube.cubeState.d.(c00 := cubeState.u.c00, c10 := cubeState.u.c10, c20 := cubeState.u.c20));
        clonedCube.cubeState := clonedCube.cubeState.(f := clonedCube.cubeState.f.(c00 := cubeState.b.c22, c10 := cubeState.b.c12, c20 := cubeState.b.c02));
        clonedCube.cubeState := clonedCube.cubeState.(l := clonedCube.cubeState.l.(c00 := cubeState.l.c22, c01 := cubeState.l.c21, c02 := cubeState.l.c20));
        clonedCube.cubeState := clonedCube.cubeState.(l := clonedCube.cubeState.l.(c10 := cubeState.l.c12, c12 := cubeState.l.c10));
        clonedCube.cubeState := clonedCube.cubeState.(l := clonedCube.cubeState.l.(c20 := cubeState.l.c02, c21 := cubeState.l.c01, c22 := cubeState.l.c00));
      case U =>
        clonedCube.cubeState := clonedCube.cubeState.(f := clonedCube.cubeState.f.(c00 := cubeState.r.c00, c01 := cubeState.r.c01, c02 := cubeState.r.c02));
        clonedCube.cubeState := clonedCube.cubeState.(r := clonedCube.cubeState.r.(c00 := cubeState.b.c00, c01 := cubeState.b.c01, c02 := cubeState.b.c02));
        clonedCube.cubeState := clonedCube.cubeState.(b := clonedCube.cubeState.b.(c00 := cubeState.l.c00, c01 := cubeState.l.c01, c02 := cubeState.l.c02));
        clonedCube.cubeState := clonedCube.cubeState.(l := clonedCube.cubeState.l.(c00 := cubeState.f.c00, c01 := cubeState.f.c01, c02 := cubeState.f.c02));
        clonedCube.cubeState := clonedCube.cubeState.(u := clonedCube.cubeState.u.(c00 := cubeState.u.c20, c01 := cubeState.u.c10, c02 := cubeState.u.c00));
        clonedCube.cubeState := clonedCube.cubeState.(u := clonedCube.cubeState.u.(c10 := cubeState.u.c21, c12 := cubeState.u.c01));
        clonedCube.cubeState := clonedCube.cubeState.(u := clonedCube.cubeState.u.(c20 := cubeState.u.c22, c21 := cubeState.u.c12, c22 := cubeState.u.c02));
      case U' =>
        clonedCube.cubeState := clonedCube.cubeState.(f := clonedCube.cubeState.f.(c00 := cubeState.l.c00, c01 := cubeState.l.c01, c02 := cubeState.l.c02));
        clonedCube.cubeState := clonedCube.cubeState.(r := clonedCube.cubeState.r.(c00 := cubeState.f.c00, c01 := cubeState.f.c01, c02 := cubeState.f.c02));
        clonedCube.cubeState := clonedCube.cubeState.(b := clonedCube.cubeState.b.(c00 := cubeState.r.c00, c01 := cubeState.r.c01, c02 := cubeState.r.c02));
        clonedCube.cubeState := clonedCube.cubeState.(l := clonedCube.cubeState.l.(c00 := cubeState.b.c00, c01 := cubeState.b.c01, c02 := cubeState.b.c02));
        clonedCube.cubeState := clonedCube.cubeState.(u := clonedCube.cubeState.u.(c00 := cubeState.u.c02, c01 := cubeState.u.c12, c02 := cubeState.u.c22));
        clonedCube.cubeState := clonedCube.cubeState.(u := clonedCube.cubeState.u.(c10 := cubeState.u.c01, c12 := cubeState.u.c21));
        clonedCube.cubeState := clonedCube.cubeState.(u := clonedCube.cubeState.u.(c20 := cubeState.u.c00, c21 := cubeState.u.c10, c22 := cubeState.u.c20));
      case U2 =>
        clonedCube.cubeState := clonedCube.cubeState.(f := clonedCube.cubeState.f.(c00 := cubeState.b.c00, c01 := cubeState.b.c01, c02 := cubeState.b.c02));
        clonedCube.cubeState := clonedCube.cubeState.(r := clonedCube.cubeState.r.(c00 := cubeState.l.c00, c01 := cubeState.l.c01, c02 := cubeState.l.c02));
        clonedCube.cubeState := clonedCube.cubeState.(b := clonedCube.cubeState.b.(c00 := cubeState.f.c00, c01 := cubeState.f.c01, c02 := cubeState.f.c02));
        clonedCube.cubeState := clonedCube.cubeState.(l := clonedCube.cubeState.l.(c00 := cubeState.r.c00, c01 := cubeState.r.c01, c02 := cubeState.r.c02));
        clonedCube.cubeState := clonedCube.cubeState.(u := clonedCube.cubeState.u.(c00 := cubeState.u.c22, c01 := cubeState.u.c21, c02 := cubeState.u.c20));
        clonedCube.cubeState := clonedCube.cubeState.(u := clonedCube.cubeState.u.(c10 := cubeState.u.c12, c12 := cubeState.u.c10));
        clonedCube.cubeState := clonedCube.cubeState.(u := clonedCube.cubeState.u.(c20 := cubeState.u.c02, c21 := cubeState.u.c01, c22 := cubeState.u.c00));
      case D =>
        clonedCube.cubeState := clonedCube.cubeState.(f := clonedCube.cubeState.f.(c20 := cubeState.l.c20, c21 := cubeState.l.c21, c22 := cubeState.l.c22));
        clonedCube.cubeState := clonedCube.cubeState.(l := clonedCube.cubeState.l.(c20 := cubeState.b.c20, c21 := cubeState.b.c21, c22 := cubeState.b.c22));
        clonedCube.cubeState := clonedCube.cubeState.(b := clonedCube.cubeState.b.(c20 := cubeState.r.c20, c21 := cubeState.r.c21, c22 := cubeState.r.c22));
        clonedCube.cubeState := clonedCube.cubeState.(r := clonedCube.cubeState.r.(c20 := cubeState.f.c20, c21 := cubeState.f.c21, c22 := cubeState.f.c22));
        clonedCube.cubeState := clonedCube.cubeState.(d := clonedCube.cubeState.d.(c00 := cubeState.d.c20, c01 := cubeState.d.c10, c02 := cubeState.d.c00));
        clonedCube.cubeState := clonedCube.cubeState.(d := clonedCube.cubeState.d.(c10 := cubeState.d.c21, c12 := cubeState.d.c01));
        clonedCube.cubeState := clonedCube.cubeState.(d := clonedCube.cubeState.d.(c20 := cubeState.d.c22, c21 := cubeState.d.c12, c22 := cubeState.d.c02));
      case D' =>
        clonedCube.cubeState := clonedCube.cubeState.(f := clonedCube.cubeState.f.(c20 := cubeState.r.c20, c21 := cubeState.r.c21, c22 := cubeState.r.c22));
        clonedCube.cubeState := clonedCube.cubeState.(l := clonedCube.cubeState.l.(c20 := cubeState.f.c20, c21 := cubeState.f.c21, c22 := cubeState.f.c22));
        clonedCube.cubeState := clonedCube.cubeState.(b := clonedCube.cubeState.b.(c20 := cubeState.l.c20, c21 := cubeState.l.c21, c22 := cubeState.l.c22));
        clonedCube.cubeState := clonedCube.cubeState.(r := clonedCube.cubeState.r.(c20 := cubeState.b.c20, c21 := cubeState.b.c21, c22 := cubeState.b.c22));
        clonedCube.cubeState := clonedCube.cubeState.(d := clonedCube.cubeState.d.(c00 := cubeState.d.c02, c01 := cubeState.d.c12, c02 := cubeState.d.c22));
        clonedCube.cubeState := clonedCube.cubeState.(d := clonedCube.cubeState.d.(c10 := cubeState.d.c01, c12 := cubeState.d.c21));
        clonedCube.cubeState := clonedCube.cubeState.(d := clonedCube.cubeState.d.(c20 := cubeState.d.c00, c21 := cubeState.d.c10, c22 := cubeState.d.c20));
      case D2 =>
        clonedCube.cubeState := clonedCube.cubeState.(f := clonedCube.cubeState.f.(c20 := cubeState.b.c20, c21 := cubeState.b.c21, c22 := cubeState.b.c22));
        clonedCube.cubeState := clonedCube.cubeState.(l := clonedCube.cubeState.l.(c20 := cubeState.r.c20, c21 := cubeState.r.c21, c22 := cubeState.r.c22));
        clonedCube.cubeState := clonedCube.cubeState.(b := clonedCube.cubeState.b.(c20 := cubeState.f.c20, c21 := cubeState.f.c21, c22 := cubeState.f.c22));
        clonedCube.cubeState := clonedCube.cubeState.(r := clonedCube.cubeState.r.(c20 := cubeState.l.c20, c21 := cubeState.l.c21, c22 := cubeState.l.c22));
        clonedCube.cubeState := clonedCube.cubeState.(d := clonedCube.cubeState.d.(c00 := cubeState.d.c22, c01 := cubeState.d.c21, c02 := cubeState.d.c20));
        clonedCube.cubeState := clonedCube.cubeState.(d := clonedCube.cubeState.d.(c10 := cubeState.d.c12, c12 := cubeState.d.c10));
        clonedCube.cubeState := clonedCube.cubeState.(d := clonedCube.cubeState.d.(c20 := cubeState.d.c02, c21 := cubeState.d.c01, c22 := cubeState.d.c00));
      case F =>
        clonedCube.cubeState := clonedCube.cubeState.(u := clonedCube.cubeState.u.(c22 := cubeState.l.c02, c21 := cubeState.l.c12, c20 := cubeState.l.c22));
        clonedCube.cubeState := clonedCube.cubeState.(r := clonedCube.cubeState.r.(c00 := cubeState.u.c20, c10 := cubeState.u.c21, c20 := cubeState.u.c22));
        clonedCube.cubeState := clonedCube.cubeState.(d := clonedCube.cubeState.d.(c00 := cubeState.r.c20, c01 := cubeState.r.c10, c02 := cubeState.r.c00));
        clonedCube.cubeState := clonedCube.cubeState.(l := clonedCube.cubeState.l.(c22 := cubeState.d.c02, c12 := cubeState.d.c01, c02 := cubeState.d.c00));
        clonedCube.cubeState := clonedCube.cubeState.(f := clonedCube.cubeState.f.(c00 := cubeState.f.c20, c01 := cubeState.f.c10, c02 := cubeState.f.c00));
        clonedCube.cubeState := clonedCube.cubeState.(f := clonedCube.cubeState.f.(c10 := cubeState.f.c21, c12 := cubeState.f.c01));
        clonedCube.cubeState := clonedCube.cubeState.(f := clonedCube.cubeState.f.(c20 := cubeState.f.c22, c21 := cubeState.f.c12, c22 := cubeState.f.c02));
      case F' =>
        clonedCube.cubeState := clonedCube.cubeState.(u := clonedCube.cubeState.u.(c22 := cubeState.r.c20, c21 := cubeState.r.c10, c20 := cubeState.r.c00));
        clonedCube.cubeState := clonedCube.cubeState.(r := clonedCube.cubeState.r.(c00 := cubeState.d.c02, c10 := cubeState.d.c01, c20 := cubeState.d.c00));
        clonedCube.cubeState := clonedCube.cubeState.(d := clonedCube.cubeState.d.(c00 := cubeState.l.c02, c01 := cubeState.l.c12, c02 := cubeState.l.c22));
        clonedCube.cubeState := clonedCube.cubeState.(l := clonedCube.cubeState.l.(c22 := cubeState.u.c20, c12 := cubeState.u.c21, c02 := cubeState.u.c22));
        clonedCube.cubeState := clonedCube.cubeState.(f := clonedCube.cubeState.f.(c00 := cubeState.f.c02, c01 := cubeState.f.c12, c02 := cubeState.f.c22));
        clonedCube.cubeState := clonedCube.cubeState.(f := clonedCube.cubeState.f.(c10 := cubeState.f.c01, c12 := cubeState.f.c21));
        clonedCube.cubeState := clonedCube.cubeState.(f := clonedCube.cubeState.f.(c20 := cubeState.f.c00, c21 := cubeState.f.c10, c22 := cubeState.f.c20));
      case F2 =>
        clonedCube.cubeState := clonedCube.cubeState.(u := clonedCube.cubeState.u.(c22 := cubeState.d.c00, c21 := cubeState.d.c01, c20 := cubeState.d.c02));
        clonedCube.cubeState := clonedCube.cubeState.(r := clonedCube.cubeState.r.(c00 := cubeState.l.c22, c10 := cubeState.l.c12, c20 := cubeState.l.c02));
        clonedCube.cubeState := clonedCube.cubeState.(d := clonedCube.cubeState.d.(c00 := cubeState.u.c22, c01 := cubeState.u.c21, c02 := cubeState.u.c20));
        clonedCube.cubeState := clonedCube.cubeState.(l := clonedCube.cubeState.l.(c22 := cubeState.r.c00, c12 := cubeState.r.c10, c02 := cubeState.r.c20));
        clonedCube.cubeState := clonedCube.cubeState.(f := clonedCube.cubeState.f.(c00 := cubeState.f.c22, c01 := cubeState.f.c21, c02 := cubeState.f.c20));
        clonedCube.cubeState := clonedCube.cubeState.(f := clonedCube.cubeState.f.(c10 := cubeState.f.c12, c12 := cubeState.f.c10));
        clonedCube.cubeState := clonedCube.cubeState.(f := clonedCube.cubeState.f.(c20 := cubeState.f.c02, c21 := cubeState.f.c01, c22 := cubeState.f.c00));
      case B =>
        clonedCube.cubeState := clonedCube.cubeState.(u := clonedCube.cubeState.u.(c00 := cubeState.r.c02, c01 := cubeState.r.c12, c02 := cubeState.r.c22));
        clonedCube.cubeState := clonedCube.cubeState.(l := clonedCube.cubeState.l.(c00 := cubeState.u.c02, c10 := cubeState.u.c01, c20 := cubeState.u.c00));
        clonedCube.cubeState := clonedCube.cubeState.(d := clonedCube.cubeState.d.(c22 := cubeState.l.c20, c21 := cubeState.l.c10, c20 := cubeState.l.c00));
        clonedCube.cubeState := clonedCube.cubeState.(r := clonedCube.cubeState.r.(c22 := cubeState.d.c20, c12 := cubeState.d.c21, c02 := cubeState.d.c22));
        clonedCube.cubeState := clonedCube.cubeState.(b := clonedCube.cubeState.b.(c00 := cubeState.b.c20, c01 := cubeState.b.c10, c02 := cubeState.b.c00));
        clonedCube.cubeState := clonedCube.cubeState.(b := clonedCube.cubeState.b.(c10 := cubeState.b.c21, c12 := cubeState.b.c01));
        clonedCube.cubeState := clonedCube.cubeState.(b := clonedCube.cubeState.b.(c20 := cubeState.b.c22, c21 := cubeState.b.c12, c22 := cubeState.b.c02));
      case B' =>
        clonedCube.cubeState := clonedCube.cubeState.(u := clonedCube.cubeState.u.(c00 := cubeState.l.c20, c01 := cubeState.l.c10, c02 := cubeState.l.c00));
        clonedCube.cubeState := clonedCube.cubeState.(l := clonedCube.cubeState.l.(c00 := cubeState.d.c20, c10 := cubeState.d.c21, c20 := cubeState.d.c22));
        clonedCube.cubeState := clonedCube.cubeState.(d := clonedCube.cubeState.d.(c22 := cubeState.r.c02, c21 := cubeState.r.c12, c20 := cubeState.r.c22));
        clonedCube.cubeState := clonedCube.cubeState.(r := clonedCube.cubeState.r.(c22 := cubeState.u.c02, c12 := cubeState.u.c01, c02 := cubeState.u.c00));
        clonedCube.cubeState := clonedCube.cubeState.(b := clonedCube.cubeState.b.(c00 := cubeState.b.c02, c01 := cubeState.b.c12, c02 := cubeState.b.c22));
        clonedCube.cubeState := clonedCube.cubeState.(b := clonedCube.cubeState.b.(c10 := cubeState.b.c01, c12 := cubeState.b.c21));
        clonedCube.cubeState := clonedCube.cubeState.(b := clonedCube.cubeState.b.(c20 := cubeState.b.c00, c21 := cubeState.b.c10, c22 := cubeState.b.c20));
      case B2 =>
        clonedCube.cubeState := clonedCube.cubeState.(u := clonedCube.cubeState.u.(c00 := cubeState.d.c22, c01 := cubeState.d.c21, c02 := cubeState.d.c20));
        clonedCube.cubeState := clonedCube.cubeState.(l := clonedCube.cubeState.l.(c00 := cubeState.r.c22, c10 := cubeState.r.c12, c20 := cubeState.r.c02));
        clonedCube.cubeState := clonedCube.cubeState.(d := clonedCube.cubeState.d.(c22 := cubeState.u.c00, c21 := cubeState.u.c01, c20 := cubeState.u.c02));
        clonedCube.cubeState := clonedCube.cubeState.(r := clonedCube.cubeState.r.(c22 := cubeState.l.c00, c12 := cubeState.l.c10, c02 := cubeState.l.c20));
        clonedCube.cubeState := clonedCube.cubeState.(b := clonedCube.cubeState.b.(c00 := cubeState.b.c22, c01 := cubeState.b.c21, c02 := cubeState.b.c20));
        clonedCube.cubeState := clonedCube.cubeState.(b := clonedCube.cubeState.b.(c10 := cubeState.b.c12, c12 := cubeState.b.c10));
        clonedCube.cubeState := clonedCube.cubeState.(b := clonedCube.cubeState.b.(c20 := cubeState.b.c02, c21 := cubeState.b.c01, c22 := cubeState.b.c00));
    }

    /** rotateCube(moves): rotateCubeOnce folded over the moves, starting from the receiver. */
    method RotateCube(moves: seq<Move>) returns (cube: RubikCube)
      ensures cube.cubeState == Apply(cubeState, moves)
      ensures moves == [] ==> cube == this
      ensures cube == this || fresh(cube)
    {
      cube := this;
      for i := 0 to |moves|
        invariant cube.cubeState == Apply(cubeState, moves[..i])
        invariant i == 0 ==> cube == this
        invariant cube == this || fresh(cube)
      {
        cube := cube.RotateCubeOnce(moves[i]);
        ApplyStep(cubeState, moves, i);
      }
      assert moves[..|moves|] == moves;
    }

    /**
     * net(): rubikCubeNet over the facelet letters, faces in iterator order:
     * facelet `k` appears, padded to two, at its place in the net.
     */
    function Net(): (net: seq<seq<Option<string>>>)
      reads this
      ensures |net| == 9 && forall row :: 0 <= row < 9 ==> |net[row]| == 12
      ensures forall k :: 0 <= k < 54 ==>
        net[Helper.NetPosition(k).0][Helper.NetPosition(k).1] == Some(Helper.PadStart([Letter(Facelets(cubeState)[k])]))
      ensures forall row, col :: 0 <= row < 9 && 0 <= col < 12 && Helper.NetTemplate[row][col].None? ==> net[row][col].None?
    {
      var facelets := Facelets(cubeState);
      var letters := seq(54, k requires 0 <= k < 54 => [Letter(facelets[k])]);
      assert forall k :: 0 <= k < 54 ==>
        Helper.RubikCubeNet(letters)[Helper.NetPosition(k).0][Helper.NetPosition(k).1] == Some(Helper.PadStart(letters[k])) by {
        forall k | 0 <= k < 54 {
          Helper.NetShowsEachLabel(letters, k);
        }
      }
      Helper.RubikCubeNet(letters)
    }

    /** withMoveNotation(moves): the solved cube with the moves applied. */
    static method WithMoveNotation(moves: seq<Move>) returns (cube: RubikCube)
      ensures fresh(cube)
      ensures cube.cubeState == Apply(CubeState.Default(), moves)
    {
      var solved := Default();
      cube := solved.RotateCube(moves);
    }
  }

  /** One more move extends the fold by one rotateCubeOnce. */
  lemma ApplyStep(c: Cube, moves: seq<Move>, i: nat)
    requires i < |moves|
    ensures Apply(c, moves[..i + 1]) == Turn(Apply(c, moves[..i]), moves[i])
  {
    assert moves[..i + 1] == moves[..i] + [moves[i]];
    MoveEngine.ApplyAppend(c, moves[..i], [moves[i]]);
    MoveEngine.ApplyOne(Apply(c, moves[..i]), moves[i]);
  }
}
