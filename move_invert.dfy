/**
 * moveInvert: the moves that undo a move, as notation tokens, together
 * with the progress value the guide shows for it.
 */
module MoveInvert {
  import opened Wrappers
  import opened MoveNotation
  import opened CubeState
  import MoveEngine

  /** `{moves, progress}`. */
  datatype MoveInvertResult = MoveInvertResult(moves: seq<string>, progress: real)

  /** The six bare face letters. */
  const MoveList: seq<string> := ["R", "L", "U", "B", "F", "D"]

  /** `s.replace(ch, "")` with a one-character pattern: drops the first `ch`, if any. */
  function ReplaceFirst(s: string, ch: char): (r: string)
    ensures ch !in s ==> r == s
    ensures ch in s ==> |r| == |s| - 1
  {
    if |s| == 0 then s
    else if s[0] == ch then s[1..]
    else [s[0]] + ReplaceFirst(s[1..], ch)
  }

  /** Only the first occurrence goes; everything before and after it stays. */
  lemma {:induction false} ReplaceFirstAt(s: string, ch: char, i: nat)
    requires i < |s| && s[i] == ch && ch !in s[..i]
    ensures ReplaceFirst(s, ch) == s[..i] + s[i + 1..]
  {
    if i > 0 {
      assert s[1..][..i - 1] == s[1..i];
      assert s[1..][i - 1] == s[i];
      ReplaceFirstAt(s[1..], ch, i - 1);
      assert s[..i] == [s[0]] + s[1..i];
    }
  }

  /**
   * moveInvert(move): a bare letter X gives `[X']`, X' gives `[X]` (both
   * with progress 0.7), X2 gives `[X', X']` with progress 0.8, anything
   * else nothing with progress 0.
   */
  function MoveInvert(move: Move): (r: MoveInvertResult)
    ensures r.moves == [] <==> r.progress == 0.0
    ensures r.progress == 0.7 ==> |r.moves| == 1
    ensures r.progress == 0.8 ==> |r.moves| == 2 && r.moves[0] == r.moves[1]
    ensures r.progress in {0.0, 0.7, 0.8}
  {
    var s := Notation(move);
    if s in MoveList then MoveInvertResult([s + "'"], 0.7)
    else if '\'' in s then MoveInvertResult([ReplaceFirst(s, '\'')], 0.7)
    else if '2' in s then
      var reverseMove := ReplaceFirst(s, '2') + "'";
      MoveInvertResult([reverseMove, reverseMove], 0.8)
    else MoveInvertResult([], 0.0)
  }

  /** A bare letter is in the list, and priming it gives the counterclockwise token. */
  lemma BareLetter(face: FaceName)
    ensures Notation(MoveOf(face, Clockwise)) in MoveList
    ensures Notation(MoveOf(face, Clockwise)) + "'" == Notation(MoveOf(face, Counterclockwise))
  {
    match face
    case Up => assert MoveList[2] == "U";
    case Down => assert MoveList[5] == "D";
    case Front => assert MoveList[4] == "F";
    case Back => assert MoveList[3] == "B";
    case Left => assert MoveList[1] == "L";
    case Right => assert MoveList[0] == "R";
  }

  /** Two-character tokens are not in the list of bare letters. */
  lemma NotBare(s: string)
    requires |s| == 2
    ensures s !in MoveList
  {
  }

  /** Dropping the quote of `X'` gives `X`. */
  lemma Unprimed(face: FaceName)
    ensures '\'' in Notation(MoveOf(face, Counterclockwise))
    ensures ReplaceFirst(Notation(MoveOf(face, Counterclockwise)), '\'') == Notation(MoveOf(face, Clockwise))
  {
    var s := Notation(MoveOf(face, Counterclockwise));
    assert s[1] == '\'' && s[0] != '\'';
    ReplaceFirstAt(s, '\'', 1);
    assert s[..1] == Notation(MoveOf(face, Clockwise));
  }

  /** `X2` has no quote, and dropping the `2` and priming gives `X'`. */
  lemma Undoubled(face: FaceName)
    ensures '\'' !in Notation(MoveOf(face, Diagonal)) && '2' in Notation(MoveOf(face, Diagonal))
    ensures ReplaceFirst(Notation(MoveOf(face, Diagonal)), '2') + "'" == Notation(MoveOf(face, Counterclockwise))
  {
    var s := Notation(MoveOf(face, Diagonal));
    assert s[1] == '2' && s[0] != '2' && s[0] != '\'';
    ReplaceFirstAt(s, '2', 1);
    assert s[..1] + s[2..] + "'" == Notation(MoveOf(face, Counterclockwise));
  }

  /** The three suffix cases, for every face. */
  lemma MoveInvertCases(face: FaceName)
    ensures MoveInvert(MoveOf(face, Clockwise)) ==
      MoveInvertResult([Notation(MoveOf(face, Counterclockwise))], 0.7)
    ensures MoveInvert(MoveOf(face, Counterclockwise)) ==
      MoveInvertResult([Notation(MoveOf(face, Clockwise))], 0.7)
    ensures MoveInvert(MoveOf(face, Diagonal)) ==
      MoveInvertResult([Notation(MoveOf(face, Counterclockwise)), Notation(MoveOf(face, Counterclockwise))], 0.8)
  {
    BareLetter(face);
    NotBare(Notation(MoveOf(face, Counterclockwise)));
    NotBare(Notation(MoveOf(face, Diagonal)));
    Unprimed(face);
    Undoubled(face);
  }

  /** The moves the tokens name; every token moveInvert returns is one of the 18. */
  function InvertMoves(move: Move): (ms: seq<Move>)
    ensures |ms| == |MoveInvert(move).moves|
    ensures forall i :: 0 <= i < |ms| ==> Notation(ms[i]) == MoveInvert(move).moves[i]
  {
    var x := GetRotateNotationDetail(move);
    MoveInvertCases(x.face);
    RotateNotationDetailBijective(move);
    match x.rotateTo
    case Clockwise => [MoveOf(x.face, Counterclockwise)]
    case Counterclockwise => [MoveOf(x.face, Clockwise)]
    case Diagonal => [MoveOf(x.face, Counterclockwise), MoveOf(x.face, Counterclockwise)]
  }

  /** The fallback `{moves: [], progress: 0}` is never reached for a valid move. */
  lemma MoveInvertNeverEmpty(move: Move)
    ensures |MoveInvert(move).moves| > 0 && MoveInvert(move).progress > 0.0
  {
    var x := GetRotateNotationDetail(move);
    MoveInvertCases(x.face);
    RotateNotationDetailBijective(move);
  }

  /** Turning by `move` and then by the inverted moves gives the cube back. */
  lemma MoveInvertUndoes(c: Cube, move: Move)
    ensures Apply(Turn(c, move), InvertMoves(move)) == c
  {
    var x := GetRotateNotationDetail(move);
    RotateNotationDetailBijective(move);
    var ccw := MoveOf(x.face, Counterclockwise);
    match x.rotateTo
    case Clockwise =>
      MoveEngine.ApplyOne(Turn(c, move), ccw);
      MoveEngine.QuarterTurnsUndoEachOther(c, x.face);
    case Counterclockwise =>
      MoveEngine.ApplyOne(Turn(c, move), MoveOf(x.face, Clockwise));
      MoveEngine.QuarterTurnsUndoEachOther(c, x.face);
    case Diagonal =>
      MoveEngine.ApplyAppend(Turn(c, move), [ccw], [ccw]);
      MoveEngine.ApplyOne(Turn(c, move), ccw);
      MoveEngine.ApplyOne(Turn(Turn(c, move), ccw), ccw);
      assert [ccw, ccw] == [ccw] + [ccw];
      MoveEngine.TwoCounterclockwiseUndoHalfTurn(c, x.face);
  }
}
