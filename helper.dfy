/**
 * The two helpers shared by the cube class: `collectResult`, which turns a
 * stream of results into one result, and `rubikCubeNet`, which lays the 54
 * facelet labels out as the unfolded net.
 */
module Helper {
  import opened Wrappers

  /** Every element is an `Ok`. */
  predicate AllOk<T, E>(items: seq<Result<T, E>>)
  {
    forall i :: 0 <= i < |items| ==> items[i].Ok?
  }

  /** Element `k` is an `Err` and every element before it is an `Ok`. */
  predicate FirstErr<T, E>(items: seq<Result<T, E>>, k: nat)
  {
    k < |items| && items[k].Err? && forall j :: 0 <= j < k ==> items[j].Ok?
  }

  /** What collectResult computes: the first error, or all values in order. */
  function Collect<T, E>(items: seq<Result<T, E>>): (r: Result<seq<T>, E>)
    ensures r.Ok? ==> |r.value| == |items|
  {
    if |items| == 0 then Ok([])
    else if items[0].Err? then Err(items[0].error)
    else
      match Collect(items[1..])
      case Ok(rest) => Ok([items[0].value] + rest)
      case Err(e) => Err(e)
  }

  /** With no error in the stream, every value comes out, in input order. */
  lemma {:induction false} CollectAllOk<T, E>(items: seq<Result<T, E>>)
    requires AllOk(items)
    ensures Collect(items).Ok?
    ensures forall i :: 0 <= i < |items| ==> Collect(items).value[i] == items[i].value
  {
    if |items| > 0 {
      assert AllOk(items[1..]) by {
        forall i | 0 <= i < |items[1..]|
          ensures items[1..][i].Ok?
        {
          assert items[1..][i] == items[i + 1];
        }
      }
      CollectAllOk(items[1..]);
      forall i | 0 <= i < |items|
        ensures Collect(items).value[i] == items[i].value
      {
        if i > 0 {
          assert items[1..][i - 1] == items[i];
        }
      }
    }
  }

  /** The first error of the stream is the result, whatever follows it. */
  lemma {:induction false} CollectFirstErr<T, E>(items: seq<Result<T, E>>, k: nat)
    requires FirstErr(items, k)
    ensures Collect(items) == Err(items[k].error)
  {
    if k > 0 {
      assert FirstErr(items[1..], k - 1) by {
        assert items[1..][k - 1] == items[k];
        forall j | 0 <= j < k - 1
          ensures items[1..][j].Ok?
        {
          assert items[1..][j] == items[j + 1];
        }
      }
      CollectFirstErr(items[1..], k - 1);
    }
  }

  /** An error anywhere in the stream makes the whole result an error. */
  lemma {:induction false} CollectOkIffAllOk<T, E>(items: seq<Result<T, E>>)
    ensures Collect(items).Ok? <==> AllOk(items)
  {
    if AllOk(items) {
      CollectAllOk(items);
    } else {
      var k :| 0 <= k < |items| && items[k].Err?;
      FirstErrExists(items, k);
      var first :| FirstErr(items, first);
      CollectFirstErr(items, first);
    }
  }

  /** If some element is an error, there is a first one. */
  lemma {:induction false} FirstErrExists<T, E>(items: seq<Result<T, E>>, k: nat)
    requires k < |items| && items[k].Err?
    ensures exists first :: FirstErr(items, first)
    decreases k
  {
    if forall j :: 0 <= j < k ==> items[j].Ok? {
      assert FirstErr(items, k);
    } else {
      var j :| 0 <= j < k && items[j].Err?;
      FirstErrExists(items, j);
    }
  }

  /**
   * collectResult: walks the stream, keeping the values, and returns at
   * the first error without reading further.
   */
  method CollectResult<T, E>(iterable: seq<Result<T, E>>) returns (r: Result<seq<T>, E>)
    ensures r == Collect(iterable)
    ensures r.Err? ==> exists k: nat :: FirstErr(iterable, k) && r.error == iterable[k].error
  {
    var collected: seq<T> := [];
    var i := 0;
    while i < |iterable|
      invariant 0 <= i <= |iterable|
      invariant |collected| == i
      invariant forall j :: 0 <= j < i ==> iterable[j].Ok? && collected[j] == iterable[j].value
    {
      var value := iterable[i];
      if value.Err? {
        assert FirstErr(iterable, i);
        CollectFirstErr(iterable, i);
        return Err(value.error);
      } else {
        collected := collected + [value.value];
      }
      i := i + 1;
    }
    CollectAllOk(iterable);
    assert collected == Collect(iterable).value;
    return Ok(collected);
  }

  /** The empty stream collects to `Ok([])`. */
  lemma CollectEmpty<T, E>(iterable: seq<Result<T, E>>)
    requires |iterable| == 0
    ensures Collect(iterable) == Ok([])
  {
  }

  /** `str.padStart(2)`: spaces in front up to width two; longer strings stay. */
  function PadStart(str: string): (padded: string)
    ensures |padded| == if |str| < 2 then 2 else |str|
    ensures padded[|padded| - |str|..] == str
    ensures forall i :: 0 <= i < |padded| - |str| ==> padded[i] == ' '
  {
    if |str| == 0 then "  " else if |str| == 1 then [' '] + str else str
  }

  /** String interpolation of an index past the end of the array. */
  const Undefined: string := "undefined"

  /**
   * The facelet index printed in each cell of the net: nine rows of twelve
   * two-character cells. The top and bottom bands hold only the middle
   * three columns; `None` is the blank area around them.
   */
  const NetTemplate: seq<seq<Option<nat>>> := [
    [None, None, None, Some(0), Some(1), Some(2), None, None, None, None, None, None],
    [None, None, None, Some(3), Some(4), Some(5), None, None, None, None, None, None],
    [None, None, None, Some(6), Some(7), Some(8), None, None, None, None, None, None],
    [Some(36), Some(37), Some(38), Some(18), Some(19), Some(20), Some(45), Some(46), Some(47), Some(27), Some(28), Some(29)],
    [Some(39), Some(40), Some(41), Some(21), Some(22), Some(23), Some(48), Some(49), Some(50), Some(30), Some(31), Some(32)],
    [Some(42), Some(43), Some(44), Some(24), Some(25), Some(26), Some(51), Some(52), Some(53), Some(33), Some(34), Some(35)],
    [None, None, None, Some(9), Some(10), Some(11), None, None, None, None, None, None],
    [None, None, None, Some(12), Some(13), Some(14), None, None, None, None, None, None],
    [None, None, None, Some(15), Some(16), Some(17), None, None, None, None, None, None]
  ]

  /** The first facelet of the face whose block covers columns `col / 3` of the middle band: L, F, R, B. */
  function BandFace(col: nat): (first: nat)
    requires col < 12
  {
    if col < 3 then 36 else if col < 6 then 18 else if col < 9 then 45 else 27
  }

  /**
   * The template in closed form: U (0-8) on top of the middle columns, the
   * middle band L (36-44), F (18-26), R (45-53), B (27-35), and D (9-17)
   * below, each face row by row.
   */
  function NetIndexAt(row: nat, col: nat): Option<nat>
    requires row < 9 && col < 12
  {
    if 3 <= row < 6 then Some(BandFace(col) + 3 * (row - 3) + col % 3)
    else if 3 <= col < 6 then Some((if row < 3 then 0 else 9) + 3 * (row % 3) + (col - 3))
    else None
  }

  /** The template agrees cell by cell with the closed form. */
  lemma NetLayout(row: nat, col: nat)
    requires row < 9 && col < 12
    ensures |NetTemplate| == 9 && |NetTemplate[row]| == 12
    ensures NetTemplate[row][col] == NetIndexAt(row, col)
  {
    if row == 0 {
    } else if row == 1 {
    } else if row == 2 {
    } else if row == 3 {
    } else if row == 4 {
    } else if row == 5 {
    } else if row == 6 {
    } else if row == 7 {
    } else {
    }
  }

  /** Where facelet `k` sits in the net. */
  function NetPosition(k: nat): (pos: (nat, nat))
    requires k < 54
    ensures pos.0 < 9 && pos.1 < 12
  {
    if k < 9 then (k / 3, 3 + k % 3)
    else if k < 18 then (6 + (k - 9) / 3, 3 + (k - 9) % 3)
    else if k < 27 then (3 + (k - 18) / 3, 3 + (k - 18) % 3)
    else if k < 36 then (3 + (k - 27) / 3, 9 + (k - 27) % 3)
    else if k < 45 then (3 + (k - 36) / 3, (k - 36) % 3)
    else (3 + (k - 45) / 3, 6 + (k - 45) % 3)
  }

  /** The closed form puts facelet `k` at its position. */
  lemma NetPositionPlaces(k: nat)
    requires k < 54
    ensures NetIndexAt(NetPosition(k).0, NetPosition(k).1) == Some(k)
  {
    if k < 9 {
      ThirdsOf(k);
      ThirdsInverse(0, k / 3);
    } else if k < 18 {
      ThirdsOf(k - 9);
      ThirdsInverse(2, (k - 9) / 3);
    } else if k < 27 {
      ThirdsOf(k - 18);
      ThirdsInverse(1, (k - 18) % 3);
    } else if k < 36 {
      ThirdsOf(k - 27);
      ThirdsInverse(3, (k - 27) % 3);
    } else if k < 45 {
      ThirdsOf(k - 36);
      ThirdsInverse(0, (k - 36) % 3);
    } else {
      ThirdsOf(k - 45);
      ThirdsInverse(2, (k - 45) % 3);
    }
  }

  /** Row and column within a face: `d == 3 * (d / 3) + d % 3`, both below three. */
  lemma ThirdsOf(d: int)
    requires 0 <= d < 9
    ensures d / 3 < 3 && d % 3 < 3 && d == 3 * (d / 3) + d % 3
  {
  }

  /** Division by three undoes `3 * q + r` for a digit `r`. */
  lemma ThirdsInverse(q: int, r: int)
    requires 0 <= q < 4 && 0 <= r < 3
    ensures (3 * q + r) / 3 == q && (3 * q + r) % 3 == r
  {
  }

  /** A cell of the closed form holds the facelet whose position it is. */
  lemma NetIndexAtPosition(row: nat, col: nat)
    requires row < 9 && col < 12 && NetIndexAt(row, col).Some?
    ensures NetIndexAt(row, col).value < 54
    ensures NetPosition(NetIndexAt(row, col).value) == (row, col)
  {
    if 3 <= row < 6 {
      var m := if col < 3 then 0 else if col < 6 then 1 else if col < 9 then 2 else 3;
      ThirdsInverse(m, col - 3 * m);
      ThirdsInverse(row - 3, col - 3 * m);
    } else {
      var m := if row < 3 then 0 else 2;
      ThirdsInverse(m, row - 3 * m);
      ThirdsInverse(row - 3 * m, col - 3);
    }
  }

  /** Facelet `k` is printed at its position in the net and nowhere else. */
  lemma NetPlacesEachIndexOnce(k: nat, row: nat, col: nat)
    requires k < 54 && row < 9 && col < 12
    ensures NetTemplate[NetPosition(k).0][NetPosition(k).1] == Some(k)
    ensures NetTemplate[row][col] == Some(k) <==> (row, col) == NetPosition(k)
  {
    NetLayout(NetPosition(k).0, NetPosition(k).1);
    NetLayout(row, col);
    NetPositionPlaces(k);
    if NetIndexAt(row, col).Some? {
      NetIndexAtPosition(row, col);
    }
  }

  /** The label printed for facelet `k`: padded, or `undefined` past the end. */
  function Label(prettyColors: seq<string>, k: nat): string
  {
    if k < |prettyColors| then prettyColors[k] else Undefined
  }

  /**
   * rubikCubeNet(colors): every label padded to width two, then put into
   * the cell the template assigns it.
   */
  function RubikCubeNet(colors: seq<string>): (net: seq<seq<Option<string>>>)
    ensures |net| == 9
    ensures forall row :: 0 <= row < 9 ==> |net[row]| == 12
    ensures forall row, col :: 0 <= row < 9 && 0 <= col < 12 && NetTemplate[row][col].None? ==> net[row][col].None?
  {
    var prettyColors := seq(|colors|, i requires 0 <= i < |colors| => PadStart(colors[i]));
    seq(9, row requires 0 <= row < 9 =>
      seq(12, col requires 0 <= col < 12 =>
        match NetTemplate[row][col]
        case None => None
        case Some(k) => Some(Label(prettyColors, k))))
  }

  /** Each of the first 54 labels shows up, padded, at its own cell of the net. */
  lemma NetShowsEachLabel(colors: seq<string>, k: nat)
    requires |colors| == 54 && k < 54
    ensures RubikCubeNet(colors)[NetPosition(k).0][NetPosition(k).1] == Some(PadStart(colors[k]))
  {
    NetPlacesEachIndexOnce(k, 0, 0);
  }

  /** Labels of at most two characters fill their cells exactly. */
  lemma NetCellsAreTwoWide(colors: seq<string>, row: nat, col: nat)
    requires |colors| == 54 && forall i :: 0 <= i < 54 ==> |colors[i]| <= 2
    requires row < 9 && col < 12 && RubikCubeNet(colors)[row][col].Some?
    ensures |RubikCubeNet(colors)[row][col].value| == 2
  {
    NetLayout(row, col);
  }
}
