/**
 * Face names, the 18 move notations, the space-separated notation parser
 * and the per-move rotation detail.
 */
module MoveNotation {
  import opened Wrappers
  import opened Errors

  /** The six faces U, D, F, B, L, R. */
  datatype FaceName = Up | Down | Front | Back | Left | Right

  /** The letter a face goes by in the notation. */
  function FaceLetter(face: FaceName): char
  {
    match face
    case Up => 'U'
    case Down => 'D'
    case Front => 'F'
    case Back => 'B'
    case Left => 'L'
    case Right => 'R'
  }

  /** A quarter turn clockwise (X), counterclockwise (X') or a half turn (X2). */
  datatype Move =
    | R | R' | R2
    | L | L' | L2
    | U | U' | U2
    | D | D' | D2
    | F | F' | F2
    | B | B' | B2

  /** The move tokens, in the order of RUBIK_CUBE_MOVE_NOTATION. */
  const MoveNotations: seq<string> :=
    ["R", "R'", "R2", "L", "L'", "L2", "U", "U'", "U2",
     "D", "D'", "D2", "F", "F'", "F2", "B", "B'", "B2"]

  /** The moves, in the same order (RUBIK_CUBE_MOVES of the older cube class). */
  const AllMoves: seq<Move> :=
    [R, R', R2, L, L', L2, U, U', U2, D, D', D2, F, F', F2, B, B', B2]

  /** The token of a move. */
  function Notation(m: Move): string
  {
    match m
    case R => "R"   case R' => "R'"   case R2 => "R2"
    case L => "L"   case L' => "L'"   case L2 => "L2"
    case U => "U"   case U' => "U'"   case U2 => "U2"
    case D => "D"   case D' => "D'"   case D2 => "D2"
    case F => "F"   case F' => "F'"   case F2 => "F2"
    case B => "B"   case B' => "B'"   case B2 => "B2"
  }

  /**
   * The two lists agree entry by entry, every move is listed, and no
   * token is listed twice.
   */
  lemma NotationTable()
    ensures |AllMoves| == |MoveNotations| == 18
    ensures forall i :: 0 <= i < 18 ==> Notation(AllMoves[i]) == MoveNotations[i]
    ensures forall m: Move :: m in AllMoves
    ensures forall i, j :: 0 <= i < j < 18 ==> MoveNotations[i] != MoveNotations[j]
  {
    NotationsAgree();
    forall m: Move ensures m in AllMoves {
      assert AllMoves[MoveIndex(m)] == m;
    }
    NotationsDistinct();
  }

  /** Entry `i` of the token list is the token of entry `i` of the moves. */
  lemma NotationsAgree()
    ensures forall i :: 0 <= i < 18 ==> Notation(AllMoves[i]) == MoveNotations[i]
  {
  }

  /** No token is listed twice. */
  lemma NotationsDistinct()
    ensures forall i, j :: 0 <= i < j < 18 ==> MoveNotations[i] != MoveNotations[j]
  {
  }

  /** The position of a move in AllMoves. */
  function MoveIndex(m: Move): (i: nat)
    ensures i < |AllMoves| && AllMoves[i] == m
  {
    match m
    case R => 0  case R' => 1  case R2 => 2
    case L => 3  case L' => 4  case L2 => 5
    case U => 6  case U' => 7  case U2 => 8
    case D => 9  case D' => 10 case D2 => 11
    case F => 12 case F' => 13 case F2 => 14
    case B => 15 case B' => 16 case B2 => 17
  }

  /** `s` is the token of one of the 18 moves. */
  predicate IsMoveNotation(s: string)
  {
    exists m: Move :: Notation(m) == s
  }

  /** Being a move's token is being listed in RUBIK_CUBE_MOVE_NOTATION (its `includes`). */
  lemma IsMoveNotationListed(s: string)
    ensures IsMoveNotation(s) <==> s in MoveNotations
  {
    NotationTable();
    if s in MoveNotations {
      var i :| 0 <= i < |MoveNotations| && MoveNotations[i] == s;
      assert Notation(AllMoves[i]) == s;
    }
  }

  /** Reads a token back as a move; only the 18 listed tokens are moves. */
  function FromNotation(s: string): (r: Option<Move>)
    ensures r.Some? ==> Notation(r.value) == s
  {
    if s == "R" then Some(R) else if s == "R'" then Some(R') else if s == "R2" then Some(R2)
    else if s == "L" then Some(L) else if s == "L'" then Some(L') else if s == "L2" then Some(L2)
    else if s == "U" then Some(U) else if s == "U'" then Some(U') else if s == "U2" then Some(U2)
    else if s == "D" then Some(D) else if s == "D'" then Some(D') else if s == "D2" then Some(D2)
    else if s == "F" then Some(F) else if s == "F'" then Some(F') else if s == "F2" then Some(F2)
    else if s == "B" then Some(B) else if s == "B'" then Some(B') else if s == "B2" then Some(B2)
    else None
  }

  /** Every move's token reads back as that move, so tokens name moves one to one. */
  lemma FromNotationOfNotation(m: Move)
    ensures FromNotation(Notation(m)) == Some(m)
  {
  }

  /** Exactly the move tokens read as moves. */
  lemma FromNotationDefined(s: string)
    ensures FromNotation(s).Some? <==> IsMoveNotation(s)
  {
    if FromNotation(s).Some? {
      assert Notation(FromNotation(s).value) == s;
    } else if IsMoveNotation(s) {
      var m :| Notation(m) == s;
      FromNotationOfNotation(m);
    }
  }

  /** String.prototype.toUpperCase on one character, for the ASCII letters. */
  function UpperChar(c: char): (r: char)
    ensures 'a' <= c <= 'z' ==> r as int == c as int - 32
    ensures !('a' <= c <= 'z') ==> r == c
  {
    if 'a' <= c <= 'z' then (c as int - 32) as char else c
  }

  /** String.prototype.toUpperCase, for ASCII letters; all else is kept. */
  function ToUpperCase(s: string): (r: string)
    ensures |r| == |s|
    ensures forall i :: 0 <= i < |s| ==> r[i] == UpperChar(s[i])
  {
    seq(|s|, i requires 0 <= i < |s| => UpperChar(s[i]))
  }

  /** The position of the first space in `s`. */
  function IndexOfSpace(s: string): (i: nat)
    requires ' ' in s
    ensures i < |s| && s[i] == ' ' && ' ' !in s[..i]
  {
    if s[0] == ' ' then 0
    else
      var j := IndexOfSpace(s[1..]);
      assert s[1..][..j] == s[1..j + 1];
      1 + j
  }

  /** The pieces joined back with one space between neighbours. */
  function JoinWithSpaces(parts: seq<string>): string
  {
    if |parts| == 0 then ""
    else if |parts| == 1 then parts[0]
    else parts[0] + " " + JoinWithSpaces(parts[1..])
  }

  /**
   * String.prototype.split(" "): the pieces between single spaces, with
   * an empty piece between two neighbouring spaces and at either end.
   */
  function Split(s: string): (parts: seq<string>)
    ensures |parts| >= 1
    ensures forall i :: 0 <= i < |parts| ==> ' ' !in parts[i]
    decreases |s|
  {
    if ' ' in s then
      var i := IndexOfSpace(s);
      [s[..i]] + Split(s[i + 1..])
    else
      [s]
  }

  /** Joining a piece in front of at least one more adds it and a space. */
  lemma JoinCons(p: string, rest: seq<string>)
    requires |rest| >= 1
    ensures JoinWithSpaces([p] + rest) == p + " " + JoinWithSpaces(rest)
  {
    assert ([p] + rest)[0] == p;
    assert ([p] + rest)[1..] == rest;
  }

  /** Joining the pieces with single spaces gives the string back. */
  lemma {:induction false} JoinSplit(s: string)
    ensures JoinWithSpaces(Split(s)) == s
    decreases |s|
  {
    if ' ' in s {
      var i := IndexOfSpace(s);
      var tail := s[i + 1..];
      var rest := Split(tail);
      assert Split(s) == [s[..i]] + rest;
      JoinSplit(tail);
      JoinCons(s[..i], rest);
      assert s == s[..i] + [s[i]] + tail;
    }
  }

  /** The first space of a piece without spaces followed by a space is the one after the piece. */
  lemma {:induction false} SpaceAfterPiece(p: string, rest: string)
    requires ' ' !in p
    ensures ' ' in p + " " + rest && IndexOfSpace(p + " " + rest) == |p|
    decreases |p|
  {
    var s := p + " " + rest;
    assert s[|p|] == ' ';
    if |p| > 0 {
      assert s[0] == p[0];
      assert s[1..] == p[1..] + " " + rest;
      assert forall k :: 0 <= k < |p| - 1 ==> p[1..][k] == p[k + 1];
      SpaceAfterPiece(p[1..], rest);
    }
  }

  /** Splitting undoes joining pieces that hold no space. */
  lemma {:induction false} SplitJoin(parts: seq<string>)
    requires |parts| >= 1
    requires forall i :: 0 <= i < |parts| ==> ' ' !in parts[i]
    ensures Split(JoinWithSpaces(parts)) == parts
    decreases |parts|
  {
    if |parts| > 1 {
      var p := parts[0];
      var rest := JoinWithSpaces(parts[1..]);
      var s := p + " " + rest;
      SpaceAfterPiece(p, rest);
      assert s[..|p|] == p && s[|p| + 1..] == rest;
      assert forall i :: 0 <= i < |parts| - 1 ==> parts[1..][i] == parts[i + 1];
      SplitJoin(parts[1..]);
      assert parts == [p] + parts[1..];
    }
  }

  /** Two neighbouring spaces make `split` produce an empty piece. */
  lemma {:induction false} DoubleSpaceGivesEmptyPiece(s: string, k: nat)
    requires k + 1 < |s| && s[k] == ' ' && s[k + 1] == ' '
    ensures "" in Split(s)
    decreases |s|
  {
    var i := IndexOfSpace(s);
    if i == k {
      var rest := s[i + 1..];
      assert rest[0] == ' ';
      assert IndexOfSpace(rest) == 0;
      assert Split(rest)[0] == rest[..0] == "";
      assert Split(s) == [s[..i]] + Split(rest);
    } else {
      DoubleSpaceGivesEmptyPiece(s[i + 1..], k - i - 1);
      assert Split(s) == [s[..i]] + Split(s[i + 1..]);
    }
  }

  /** Every piece of `raw`, upper-cased, is one of the 18 tokens. */
  predicate Parses(raw: string)
  {
    var pieces := Split(raw);
    forall i :: 0 <= i < |pieces| ==> IsMoveNotation(ToUpperCase(pieces[i]))
  }

  /** Piece `k` is the first one that, upper-cased, is not a move token. */
  predicate FirstBadPiece(pieces: seq<string>, k: int)
  {
    0 <= k < |pieces| &&
    !IsMoveNotation(ToUpperCase(pieces[k])) &&
    forall j :: 0 <= j < k ==> IsMoveNotation(ToUpperCase(pieces[j]))
  }

  /** Keeping one more piece's move keeps every kept move's token equal to its upper-cased piece. */
  lemma ReadingOneMore(pieces: seq<string>, moves: seq<Move>, m: Move)
    requires |moves| < |pieces|
    requires forall j :: 0 <= j < |moves| ==> Notation(moves[j]) == ToUpperCase(pieces[j])
    requires Notation(m) == ToUpperCase(pieces[|moves|])
    ensures forall j :: 0 <= j < |moves| + 1 ==> Notation((moves + [m])[j]) == ToUpperCase(pieces[j])
  {
    forall j | 0 <= j < |moves| + 1
      ensures Notation((moves + [m])[j]) == ToUpperCase(pieces[j])
    {
      if j < |moves| {
        assert (moves + [m])[j] == moves[j];
      }
    }
  }

  /** One piece of parseMoveNotation: upper-cased, it is kept when RUBIK_CUBE_MOVE_NOTATION includes it. */
  method ReadMoveNotation(moveNotation: string) returns (parsed: Option<Move>)
    ensures parsed.Some? <==> IsMoveNotation(ToUpperCase(moveNotation))
    ensures parsed.Some? ==> Notation(parsed.value) == ToUpperCase(moveNotation)
  {
    var upperMoveNotation := ToUpperCase(moveNotation);
    parsed := FromNotation(upperMoveNotation);
    FromNotationDefined(upperMoveNotation);
  }

  /**
   * parseMoveNotation: splits on single spaces, upper-cases each piece and
   * keeps it when it is one of the 18 tokens; the first piece that is not
   * aborts with an error naming that piece as written.
   */
  method ParseMoveNotation(rawMoveNotations: string) returns (r: Result<seq<Move>, RubikCubeError>)
    ensures r.Ok? <==> Parses(rawMoveNotations)
    ensures r.Ok? ==> |r.value| == |Split(rawMoveNotations)|
    ensures r.Ok? ==> forall i :: 0 <= i < |r.value| ==>
                        Notation(r.value[i]) == ToUpperCase(Split(rawMoveNotations)[i])
    ensures r.Err? ==> exists k :: FirstBadPiece(Split(rawMoveNotations), k) &&
                                   r.error == RubikCubeBadMoveNotationError(Split(rawMoveNotations)[k])
  {
    var splitRawMoveNotations := Split(rawMoveNotations);
    var moveNotations: seq<Move> := [];
    for i := 0 to |splitRawMoveNotations|
      invariant |moveNotations| == i
      invariant forall j :: 0 <= j < i ==> Notation(moveNotations[j]) == ToUpperCase(splitRawMoveNotations[j])
      invariant forall j :: 0 <= j < i ==> IsMoveNotation(ToUpperCase(splitRawMoveNotations[j]))
    {
      var moveNotation := splitRawMoveNotations[i];
      var parsed := ReadMoveNotation(moveNotation);
      if parsed.None? {
        assert FirstBadPiece(splitRawMoveNotations, i);
        return Err(RubikCubeBadMoveNotationError(moveNotation));
      }
      ReadingOneMore(splitRawMoveNotations, moveNotations, parsed.value);
      moveNotations := moveNotations + [parsed.value];
    }
    return Ok(moveNotations);
  }

  /** The empty string and any string with two neighbouring spaces do not parse. */
  lemma EmptyPieceRejected(raw: string)
    ensures !Parses("")
    ensures "" in Split(raw) ==> !Parses(raw)
  {
    assert ToUpperCase("") == "";
    assert FromNotation("") == None;
    FromNotationDefined("");
    assert Split("") == [""];
    assert !IsMoveNotation(ToUpperCase(Split("")[0]));
    if "" in Split(raw) {
      var i :| 0 <= i < |Split(raw)| && Split(raw)[i] == "";
      assert !IsMoveNotation(ToUpperCase(Split(raw)[i]));
    }
  }

  /** In particular, input with two neighbouring spaces does not parse. */
  lemma DoubleSpaceRejected(raw: string, k: nat)
    requires k + 1 < |raw| && raw[k] == ' ' && raw[k + 1] == ' '
    ensures !Parses(raw)
  {
    DoubleSpaceGivesEmptyPiece(raw, k);
    EmptyPieceRejected(raw);
  }

  /** Matching ignores case: "r2 u'" splits into two pieces that read as R2 and U'. */
  lemma LowerCaseAccepted()
    ensures Split("r2 u'") == ["r2", "u'"]
    ensures FromNotation(ToUpperCase("r2")) == Some(R2)
    ensures FromNotation(ToUpperCase("u'")) == Some(U')
    ensures Parses("r2 u'")
  {
    var s := "r2 u'";
    assert s[0] != ' ' && s[1] != ' ' && s[2] == ' ';
    assert IndexOfSpace(s) == 2;
    assert s[..2] == "r2";
    assert s[3..] == "u'";
    assert ' ' !in "u'";
    assert Split("u'") == ["u'"];
    assert ToUpperCase("r2") == "R2";
    assert ToUpperCase("u'") == "U'";
  }

  /** Which way a move turns its face. */
  datatype RotateTo = Clockwise | Counterclockwise | Diagonal

  datatype RotateNotationDetail = RotateNotationDetail(rotateTo: RotateTo, face: FaceName)

  /**
   * getRotateNotationDetail: the face is the token's letter; no suffix is
   * clockwise, a trailing ' counterclockwise and a trailing 2 a half turn.
   */
  function GetRotateNotationDetail(m: Move): (r: RotateNotationDetail)
    ensures Notation(m)[0] == FaceLetter(r.face)
    ensures r.rotateTo == Clockwise <==> |Notation(m)| == 1
    ensures r.rotateTo == Counterclockwise <==> |Notation(m)| == 2 && Notation(m)[1] == '\''
    ensures r.rotateTo == Diagonal <==> |Notation(m)| == 2 && Notation(m)[1] == '2'
  {
    match m
    case R => RotateNotationDetail(Clockwise, Right)
    case R' => RotateNotationDetail(Counterclockwise, Right)
    case R2 => RotateNotationDetail(Diagonal, Right)
    case L => RotateNotationDetail(Clockwise, Left)
    case L' => RotateNotationDetail(Counterclockwise, Left)
    case L2 => RotateNotationDetail(Diagonal, Left)
    case U => RotateNotationDetail(Clockwise, Up)
    case U' => RotateNotationDetail(Counterclockwise, Up)
    case U2 => RotateNotationDetail(Diagonal, Up)
    case D => RotateNotationDetail(Clockwise, Down)
    case D' => RotateNotationDetail(Counterclockwise, Down)
    case D2 => RotateNotationDetail(Diagonal, Down)
    case F => RotateNotationDetail(Clockwise, Front)
    case F' => RotateNotationDetail(Counterclockwise, Front)
    case F2 => RotateNotationDetail(Diagonal, Front)
    case B => RotateNotationDetail(Clockwise, Back)
    case B' => RotateNotationDetail(Counterclockwise, Back)
    case B2 => RotateNotationDetail(Diagonal, Back)
  }

  /** The move that turns `face` the way `rotateTo` says. */
  function MoveOf(face: FaceName, rotateTo: RotateTo): (m: Move)
    ensures GetRotateNotationDetail(m) == RotateNotationDetail(rotateTo, face)
  {
    match face
    case Right => (match rotateTo case Clockwise => R case Counterclockwise => R' case Diagonal => R2)
    case Left => (match rotateTo case Clockwise => L case Counterclockwise => L' case Diagonal => L2)
    case Up => (match rotateTo case Clockwise => U case Counterclockwise => U' case Diagonal => U2)
    case Down => (match rotateTo case Clockwise => D case Counterclockwise => D' case Diagonal => D2)
    case Front => (match rotateTo case Clockwise => F case Counterclockwise => F' case Diagonal => F2)
    case Back => (match rotateTo case Clockwise => B case Counterclockwise => B' case Diagonal => B2)
  }

  /** The detail names every move uniquely: it is a bijection onto face x direction. */
  lemma RotateNotationDetailBijective(m: Move)
    ensures MoveOf(GetRotateNotationDetail(m).face, GetRotateNotationDetail(m).rotateTo) == m
  {
  }
}
