/**
 * The solver's finders, fix-ups and checks: scans over the fixed position
 * tables that report which corners and edges are where, and the two sorts
 * the solver keys its tables with.
 */
module SolverSearch {
  import opened Wrappers
  import opened FaceColor
  import opened MoveNotation
  import opened CubeState
  import opened SolverTables

  /** Why a bounded solver run gives no answer. */
  datatype SolverError =
    | OutOfFuel
      /** `correctDRFColors[""]` is `undefined`, and calling `every` on it throws. */
    | UndefinedCornerColors

  // ---------------------------------------------------------------------
  // Sorting

  /** `le` orders any two values one way or the other. */
  ghost predicate Total<T(!new)>(le: (T, T) -> bool)
  {
    forall a, b :: le(a, b) || le(b, a)
  }

  /** Every neighbouring pair is in order. */
  predicate SortedBy<T>(le: (T, T) -> bool, s: seq<T>)
  {
    forall i :: 0 < i < |s| ==> le(s[i - 1], s[i])
  }

  /** Puts `x` in front of the first element it is not after. */
  function InsertBy<T>(le: (T, T) -> bool, x: T, s: seq<T>): (r: seq<T>)
    ensures multiset(r) == multiset(s) + multiset{x}
    ensures |r| == |s| + 1
  {
    if |s| == 0 then [x]
    else if le(x, s[0]) then [x] + s
    else
      assert s == [s[0]] + s[1..];
      [s[0]] + InsertBy(le, x, s[1..])
  }

  /**
   * Array.prototype.sort with a comparator: a stable sort, so an element
   * never passes an equal one that came before it.
   */
  function SortBy<T>(le: (T, T) -> bool, s: seq<T>): (r: seq<T>)
    ensures |r| == |s|
  {
    if |s| == 0 then [] else InsertBy(le, s[0], SortBy(le, s[1..]))
  }

  /** Inserting into a sorted sequence keeps it sorted. */
  lemma {:induction false} InsertBySorted<T(!new)>(le: (T, T) -> bool, x: T, s: seq<T>)
    requires Total(le) && SortedBy(le, s)
    ensures SortedBy(le, InsertBy(le, x, s))
    ensures |s| > 0 ==> InsertBy(le, x, s)[0] == x || InsertBy(le, x, s)[0] == s[0]
  {
    if |s| > 0 && !le(x, s[0]) {
      assert le(s[0], x);
      assert SortedBy(le, s[1..]) by {
        forall i | 0 < i < |s[1..]|
          ensures le(s[1..][i - 1], s[1..][i])
        {
          assert s[1..][i - 1] == s[i] && s[1..][i] == s[i + 1];
        }
      }
      InsertBySorted(le, x, s[1..]);
      var t := InsertBy(le, x, s[1..]);
      forall i | 0 < i < |[s[0]] + t|
        ensures le(([s[0]] + t)[i - 1], ([s[0]] + t)[i])
      {
        if i == 1 {
          if |s| > 1 {
            assert le(s[0], s[1]);
          }
        } else {
          assert ([s[0]] + t)[i - 1] == t[i - 2] && ([s[0]] + t)[i] == t[i - 1];
        }
      }
    }
  }

  /** The sort returns a sorted permutation of its input. */
  lemma {:induction false} SortBySortedPermutation<T(!new)>(le: (T, T) -> bool, s: seq<T>)
    requires Total(le)
    ensures SortedBy(le, SortBy(le, s))
    ensures multiset(SortBy(le, s)) == multiset(s)
  {
    if |s| > 0 {
      SortBySortedPermutation(le, s[1..]);
      InsertBySorted(le, s[0], SortBy(le, s[1..]));
      assert s == [s[0]] + s[1..];
    }
  }

  /** `colorOrder[c] ?? 10`: W, B, G, R, O ranked 1 to 5, anything else 10. */
  function Rank(c: Color): (rank: nat)
    ensures rank == 10 <==> c == Yellow
  {
    match c
    case White => 1
    case Blue => 2
    case Green => 3
    case Red => 4
    case Orange => 5
    case Yellow => 10
  }

  /** The comparator `(a, b) => rank(a) - rank(b)`, as "not after". */
  predicate RankLe(a: Color, b: Color)
  {
    Rank(a) <= Rank(b)
  }

  /** normalizeCornerColors, with the joined string kept as its colour sequence. */
  function NormalizeCornerColors(colors: seq<Color>): (colorKey: seq<Color>)
    ensures |colorKey| == |colors|
  {
    SortBy(RankLe, colors)
  }

  /**
   * The normalised key is the colours sorted by rank W < B < G < R < O,
   * with yellow last; since the ranks differ, that fixes it uniquely.
   */
  lemma NormalizeCornerColorsSorted(colors: seq<Color>)
    ensures multiset(NormalizeCornerColors(colors)) == multiset(colors)
    ensures forall i :: 0 < i < |colors| ==>
      Rank(NormalizeCornerColors(colors)[i - 1]) <= Rank(NormalizeCornerColors(colors)[i])
  {
    SortBySortedPermutation(RankLe, colors);
  }

  /** A corner holding white, blue and red normalises to `WBR`, in any order. */
  lemma NormalizeWhiteBlueRed(colors: seq<Color>)
    requires multiset(colors) == multiset{White, Blue, Red}
    ensures CornerKeyOf(NormalizeCornerColors(colors)) == Some(WBR)
  {
    var k := NormalizeCornerColors(colors);
    NormalizeCornerColorsSorted(colors);
    assert |colors| == 3;
    assert k[0] in multiset(k) && k[1] in multiset(k) && k[2] in multiset(k);
    assert k == [White, Blue, Red];
  }

  /** Lexicographic order of UTF-16 code units: the default order of `sort()`. */
  predicate StringLe(a: string, b: string)
    decreases |a|
  {
    |a| == 0 || (|b| > 0 && (a[0] < b[0] || (a[0] == b[0] && StringLe(a[1..], b[1..]))))
  }

  /** Any two strings compare one way or the other. */
  lemma {:induction false} StringLeTotal(a: string, b: string)
    ensures StringLe(a, b) || StringLe(b, a)
    decreases |a|
  {
    if |a| > 0 && |b| > 0 && a[0] == b[0] {
      StringLeTotal(a[1..], b[1..]);
    }
  }

  /** `sort()` on strings returns a sorted permutation. */
  lemma SortStringsSortedPermutation(s: seq<string>)
    ensures SortedBy(StringLe, SortBy(StringLe, s))
    ensures multiset(SortBy(StringLe, s)) == multiset(s)
  {
    forall a: string, b: string
      ensures StringLe(a, b) || StringLe(b, a)
    {
      StringLeTotal(a, b);
    }
    SortBySortedPermutation(StringLe, s);
  }

  // ---------------------------------------------------------------------
  // findWhiteCorners

  /** A corner as findWhiteCorners reports it. */
  datatype FoundCorner = FoundCorner(position: CornerName, colors: seq<Color>)

  /** The corners among `ks` that show white, in the order of `ks`. */
  function WhiteCornersIn(c: Cube, ks: seq<CornerSlots>): (found: seq<FoundCorner>)
    ensures |found| <= |ks|
  {
    if |ks| == 0 then []
    else
      var k := ks[|ks| - 1];
      WhiteCornersIn(c, ks[..|ks| - 1]) +
        (if White in CornerColors(c, k) then [FoundCorner(k.position, CornerColors(c, k))] else [])
  }

  /** findWhiteCorners: scans DRF, DLF, DRB, DLB and keeps the corners showing white. */
  method FindWhiteCorners(cube: Cube) returns (whiteCorners: seq<FoundCorner>)
    ensures whiteCorners == WhiteCornersIn(cube, CornerPositions)
  {
    whiteCorners := [];
    for i := 0 to |CornerPositions|
      invariant whiteCorners == WhiteCornersIn(cube, CornerPositions[..i])
    {
      var k := CornerPositions[i];
      var colors := [Look(cube, k.s1), Look(cube, k.s2), Look(cube, k.s3)];
      if White in colors {
        whiteCorners := whiteCorners + [FoundCorner(k.position, colors)];
      }
      assert CornerPositions[..i + 1][..i] == CornerPositions[..i];
    }
    assert CornerPositions[..|CornerPositions|] == CornerPositions;
  }

  /** A corner is reported exactly when it is one of `ks` and shows white. */
  lemma {:induction false} WhiteCornersExact(c: Cube, ks: seq<CornerSlots>, x: FoundCorner)
    ensures x in WhiteCornersIn(c, ks) <==>
      exists k :: k in ks && White in CornerColors(c, k) && x == FoundCorner(k.position, CornerColors(c, k))
    decreases |ks|
  {
    if |ks| > 0 {
      var init := ks[..|ks| - 1];
      WhiteCornersExact(c, init, x);
      assert ks == init + [ks[|ks| - 1]];
      assert forall k :: k in ks <==> k in init || k == ks[|ks| - 1];
    }
  }

  /** Where a corner stands in the scan order DRF, DLF, DRB, DLB. */
  function CornerRank(position: CornerName): (i: nat)
    ensures i < 4 && CornerPositions[i].position == position
  {
    match position
    case DRF => 0
    case DLF => 1
    case DRB => 2
    case DLB => 3
  }

  /** The reports come in scan order, so no corner is reported twice. */
  lemma {:induction false} WhiteCornersInOrder(c: Cube, n: nat)
    requires n <= |CornerPositions|
    ensures var found := WhiteCornersIn(c, CornerPositions[..n]);
      (forall x :: x in found ==> CornerRank(x.position) < n) &&
      (forall i, j :: 0 <= i < j < |found| ==> CornerRank(found[i].position) < CornerRank(found[j].position))
  {
    if n > 0 {
      WhiteCornersInOrder(c, n - 1);
      assert CornerPositions[..n][..n - 1] == CornerPositions[..n - 1];
      assert CornerRank(CornerPositions[n - 1].position) == n - 1;
    }
  }

  // ---------------------------------------------------------------------
  // findEdges

  /** An edge as findEdges reports it. */
  datatype FoundEdge = FoundEdge(position: EdgeName, colors: seq<Color>)

  /** The edges among `es` that show no yellow, in the order of `es`. */
  function NoneYellowEdgesIn(c: Cube, es: seq<EdgeSlots>): (found: seq<FoundEdge>)
    ensures |found| <= |es|
  {
    if |es| == 0 then []
    else
      var e := es[|es| - 1];
      NoneYellowEdgesIn(c, es[..|es| - 1]) +
        (if Yellow !in EdgeColors(c, e) then [FoundEdge(e.position, EdgeColors(c, e))] else [])
  }

  /** findEdges: scans DF, DR, DL, DB and keeps the edges showing no yellow. */
  method FindEdges(cube: Cube) returns (noneYellowEdges: seq<FoundEdge>)
    ensures noneYellowEdges == NoneYellowEdgesIn(cube, EdgePositions)
  {
    noneYellowEdges := [];
    for i := 0 to |EdgePositions|
      invariant noneYellowEdges == NoneYellowEdgesIn(cube, EdgePositions[..i])
    {
      var e := EdgePositions[i];
      var colors := [Look(cube, e.s1), Look(cube, e.s2)];
      if Yellow !in colors {
        noneYellowEdges := noneYellowEdges + [FoundEdge(e.position, colors)];
      }
      assert EdgePositions[..i + 1][..i] == EdgePositions[..i];
    }
    assert EdgePositions[..|EdgePositions|] == EdgePositions;
  }

  /** An edge is reported exactly when it is one of `es` and shows no yellow. */
  lemma {:induction false} NoneYellowEdgesExact(c: Cube, es: seq<EdgeSlots>, x: FoundEdge)
    ensures x in NoneYellowEdgesIn(c, es) <==>
      exists e :: e in es && Yellow !in EdgeColors(c, e) && x == FoundEdge(e.position, EdgeColors(c, e))
    decreases |es|
  {
    if |es| > 0 {
      var init := es[..|es| - 1];
      NoneYellowEdgesExact(c, init, x);
      assert es == init + [es[|es| - 1]];
      assert forall e :: e in es <==> e in init || e == es[|es| - 1];
    }
  }

  /** Where an edge stands in the scan order DF, DR, DL, DB. */
  function EdgeRank(position: EdgeName): (i: nat)
    ensures i < 4 && EdgePositions[i].position == position
  {
    match position
    case DF => 0
    case DR => 1
    case DL => 2
    case DB => 3
  }

  /** The reports come in scan order, so no edge is reported twice. */
  lemma {:induction false} NoneYellowEdgesInOrder(c: Cube, n: nat)
    requires n <= |EdgePositions|
    ensures var found := NoneYellowEdgesIn(c, EdgePositions[..n]);
      (forall x :: x in found ==> EdgeRank(x.position) < n) &&
      (forall i, j :: 0 <= i < j < |found| ==> EdgeRank(found[i].position) < EdgeRank(found[j].position))
  {
    if n > 0 {
      NoneYellowEdgesInOrder(c, n - 1);
      assert EdgePositions[..n][..n - 1] == EdgePositions[..n - 1];
      assert EdgeRank(EdgePositions[n - 1].position) == n - 1;
    }
  }

  // ---------------------------------------------------------------------
  // fixUpperLayer and fixFlippedEdge

  /** Whether an entry asks for its moves. */
  predicate Fires(e: FixEntry)
  {
    e.condition || e.condition2
  }

  /** The moves of the first entry whose condition holds, or none. */
  function FirstFixOf(entries: seq<FixEntry>): (ms: seq<Move>)
    ensures ms == [] || exists i :: 0 <= i < |entries| && Fires(entries[i]) && ms == entries[i].move
  {
    if |entries| == 0 then []
    else if Fires(entries[0]) then entries[0].move
    else
      var ms := FirstFixOf(entries[1..]);
      assert forall i :: 0 <= i < |entries| - 1 ==> entries[1..][i] == entries[i + 1];
      ms
  }

  /** The loop of fixUpperLayer and fixFlippedEdge: return at the first entry that fires. */
  method FirstFix(entries: seq<FixEntry>) returns (moves: seq<Move>)
    ensures moves == FirstFixOf(entries)
  {
    for i := 0 to |entries|
      invariant FirstFixOf(entries) == FirstFixOf(entries[i..])
    {
      if Fires(entries[i]) {
        return entries[i].move;
      }
      assert entries[i..][1..] == entries[i + 1..];
    }
    return [];
  }

  /** The first firing entry decides the moves; with none firing there are none. */
  lemma {:induction false} FirstFixExact(entries: seq<FixEntry>, k: nat)
    requires k <= |entries|
    requires forall j :: 0 <= j < k ==> !Fires(entries[j])
    ensures k < |entries| && Fires(entries[k]) ==> FirstFixOf(entries) == entries[k].move
    ensures k == |entries| ==> FirstFixOf(entries) == []
  {
    if k > 0 {
      FirstFixExact(entries[1..], k - 1);
    }
  }

  /** With every entry carrying moves, none come out exactly when no entry fires. */
  lemma {:induction false} FirstFixEmpty(entries: seq<FixEntry>)
    requires forall i :: 0 <= i < |entries| ==> entries[i].move != []
    ensures FirstFixOf(entries) == [] <==> forall i :: 0 <= i < |entries| ==> !Fires(entries[i])
  {
    if |entries| > 0 {
      FirstFixEmpty(entries[1..]);
      assert forall i :: 0 < i < |entries| ==> entries[1..][i - 1] == entries[i];
    }
  }

  /** fixUpperLayer: the moves for the first top corner that is not white on top and matching at the side. */
  method FixUpperLayer(cube: Cube) returns (moves: seq<Move>)
    ensures moves == FirstFixOf(UpperLayerCorners(cube))
    ensures moves == [] <==>
      cube.At(Up, 0, 0) == White && cube.At(Up, 0, 2) == White && cube.At(Up, 2, 0) == White && cube.At(Up, 2, 2) == White &&
      cube.At(Front, 0, 2) == Green && cube.At(Left, 0, 2) == Orange && cube.At(Right, 0, 2) == Red && cube.At(Back, 0, 2) == Blue
  {
    var entries := UpperLayerCorners(cube);
    moves := FirstFix(entries);
    FirstFixEmpty(entries);
    assert (forall i :: 0 <= i < |entries| ==> !Fires(entries[i])) <==>
      !Fires(entries[0]) && !Fires(entries[1]) && !Fires(entries[2]) && !Fires(entries[3]);
  }

  /** fixFlippedEdge: the moves for the first middle edge that does not match its two faces. */
  method FixFlippedEdge(cube: Cube) returns (moves: seq<Move>)
    ensures moves == FirstFixOf(UnOrientedEdges(cube))
    ensures moves == [] <==>
      cube.At(Front, 1, 2) == Green && cube.At(Right, 1, 0) == Red && cube.At(Front, 1, 0) == Green && cube.At(Left, 1, 2) == Orange &&
      cube.At(Back, 1, 0) == Blue && cube.At(Right, 1, 2) == Red && cube.At(Back, 1, 2) == Blue && cube.At(Left, 1, 0) == Orange
  {
    var entries := UnOrientedEdges(cube);
    moves := FirstFix(entries);
    FirstFixEmpty(entries);
    assert (forall i :: 0 <= i < |entries| ==> !Fires(entries[i])) <==>
      !Fires(entries[0]) && !Fires(entries[1]) && !Fires(entries[2]) && !Fires(entries[3]);
  }

  // ---------------------------------------------------------------------
  // findGreenEdgeAndSides

  /** `{position, leftColor, rightColor}`. */
  datatype GreenEdge = GreenEdge(position: EdgeName, leftColor: Color, rightColor: Color)

  /** The first entry whose side facelet is green, with its neighbours' bottom edge colours. */
  function FirstGreenEdge(c: Cube, es: seq<GreenEdgeSlots>): (r: Option<GreenEdge>)
    ensures r.Some? ==> exists i :: (0 <= i < |es| &&
      r.value == GreenEdge(es[i].position, c.At(es[i].left, 2, 1), c.At(es[i].right, 2, 1)))
  {
    if |es| == 0 then None
    else if Look(c, es[0].slot) == Green then
      Some(GreenEdge(es[0].position, c.At(es[0].left, 2, 1), c.At(es[0].right, 2, 1)))
    else
      var r := FirstGreenEdge(c, es[1..]);
      assert forall i :: 0 <= i < |es| - 1 ==> es[1..][i] == es[i + 1];
      r
  }

  /** findGreenEdgeAndSides: scans DF, DR, DL, DB for a green side facelet. */
  method FindGreenEdgeAndSides(cube: Cube) returns (r: Option<GreenEdge>)
    ensures r == FirstGreenEdge(cube, GreenEdgePositions)
  {
    for i := 0 to |GreenEdgePositions|
      invariant FirstGreenEdge(cube, GreenEdgePositions) == FirstGreenEdge(cube, GreenEdgePositions[i..])
    {
      var e := GreenEdgePositions[i];
      if Look(cube, e.slot) == Green {
        return Some(GreenEdge(e.position, cube.At(e.left, 2, 1), cube.At(e.right, 2, 1)));
      }
      assert GreenEdgePositions[i..][1..] == GreenEdgePositions[i + 1..];
    }
    return None;
  }

  /** There is no green edge exactly when no side facelet of the bottom edges is green. */
  lemma {:induction false} FirstGreenEdgeNone(c: Cube, es: seq<GreenEdgeSlots>)
    ensures FirstGreenEdge(c, es).None? <==> forall i :: 0 <= i < |es| ==> Look(c, es[i].slot) != Green
  {
    if |es| > 0 {
      FirstGreenEdgeNone(c, es[1..]);
      assert forall i :: 0 < i < |es| ==> es[1..][i - 1] == es[i];
    }
  }

  /** A reported edge shows green and carries its two neighbours' colours. */
  lemma {:induction false} FirstGreenEdgeFound(c: Cube, es: seq<GreenEdgeSlots>)
    requires FirstGreenEdge(c, es).Some?
    ensures exists i :: (0 <= i < |es| && Look(c, es[i].slot) == Green &&
      FirstGreenEdge(c, es).value == GreenEdge(es[i].position, c.At(es[i].left, 2, 1), c.At(es[i].right, 2, 1)) &&
      forall j :: 0 <= j < i ==> Look(c, es[j].slot) != Green)
  {
    if Look(c, es[0].slot) != Green {
      FirstGreenEdgeFound(c, es[1..]);
      var i :| 0 <= i < |es[1..]| && Look(c, es[1..][i].slot) == Green &&
        FirstGreenEdge(c, es[1..]).value == GreenEdge(es[1..][i].position, c.At(es[1..][i].left, 2, 1), c.At(es[1..][i].right, 2, 1)) &&
        forall j :: 0 <= j < i ==> Look(c, es[1..][j].slot) != Green;
      assert es[i + 1] == es[1..][i];
      assert forall j :: 0 < j <= i ==> es[j] == es[1..][j - 1];
    }
  }

  // ---------------------------------------------------------------------
  // findCorrectYellowCornerPosition, checkCorrectColor, checkCorrectCornerColors

  /** `correctCorners[position].every(color => colors.includes(color))`. */
  predicate HoldsItsColors(c: Cube, k: CornerSlots)
  {
    forall col :: col in CorrectCorners(k.position) ==> col in CornerColors(c, k)
  }

  /** The first corner among `ks` that holds its colour set; `None` plays the empty string. */
  function FirstCorrectCorner(c: Cube, ks: seq<CornerSlots>): (r: Option<CornerName>)
    ensures r.Some? ==> exists i :: (0 <= i < |ks| && r.value == ks[i].position &&
      forall j :: 0 <= j < i ==> !HoldsItsColors(c, ks[j]))
  {
    if |ks| == 0 then None
    else if HoldsItsColors(c, ks[0]) then Some(ks[0].position)
    else
      var r := FirstCorrectCorner(c, ks[1..]);
      assert forall i :: 0 <= i < |ks| - 1 ==> ks[1..][i] == ks[i + 1];
      r
  }

  /** findCorrectYellowCornerPosition: scans DRF, DLF, DRB, DLB for a corner holding its colours. */
  method FindCorrectYellowCornerPosition(cube: Cube) returns (r: Option<CornerName>)
    ensures r == FirstCorrectCorner(cube, CornerPositions)
  {
    for i := 0 to |CornerPositions|
      invariant FirstCorrectCorner(cube, CornerPositions) == FirstCorrectCorner(cube, CornerPositions[i..])
    {
      var k := CornerPositions[i];
      var colors := [Look(cube, k.s1), Look(cube, k.s2), Look(cube, k.s3)];
      if forall col :: col in CorrectCorners(k.position) ==> col in colors {
        return Some(k.position);
      }
      assert CornerPositions[i..][1..] == CornerPositions[i + 1..];
    }
    return None;
  }

  /** A reported corner holds its colours, and none before it does; none reported means none does. */
  lemma {:induction false} FirstCorrectCornerExact(c: Cube, ks: seq<CornerSlots>)
    ensures FirstCorrectCorner(c, ks).None? <==> forall i :: 0 <= i < |ks| ==> !HoldsItsColors(c, ks[i])
    ensures FirstCorrectCorner(c, ks).Some? ==>
      exists i :: 0 <= i < |ks| && HoldsItsColors(c, ks[i]) && FirstCorrectCorner(c, ks).value == ks[i].position
  {
    if |ks| > 0 {
      FirstCorrectCornerExact(c, ks[1..]);
      assert forall i :: 0 < i < |ks| ==> ks[1..][i - 1] == ks[i];
    }
  }

  /**
   * checkCorrectColor: true when the DRF corner does not yet hold the
   * colours `correctDRFColors` names for the current position; the empty
   * position has no entry and throws.
   */
  function CheckCorrectColor(c: Cube, correctCornerPosition: Option<CornerName>): (r: Result<bool, SolverError>)
    ensures correctCornerPosition.None? <==> r == Err(UndefinedCornerColors)
    ensures r.Ok? ==> (r.value <==> exists col :: (col in CorrectDRFColors(correctCornerPosition.value) &&
      col != c.At(Front, 2, 2) && col != c.At(Right, 2, 0) && col != c.At(Down, 0, 2)))
  {
    match correctCornerPosition
    case None => Err(UndefinedCornerColors)
    case Some(position) =>
      var checkCornerPosition := [c.At(Front, 2, 2), c.At(Right, 2, 0), c.At(Down, 0, 2)];
      Ok(!(forall col :: col in CorrectDRFColors(position) ==> col in checkCornerPosition))
  }

  /** How many of `ks` hold their colour sets. */
  function CorrectCount(c: Cube, ks: seq<CornerSlots>): (n: nat)
    ensures n <= |ks|
  {
    if |ks| == 0 then 0
    else CorrectCount(c, ks[..|ks| - 1]) + (if HoldsItsColors(c, ks[|ks| - 1]) then 1 else 0)
  }

  /** The count is full exactly when every corner holds its colours. */
  lemma {:induction false} CorrectCountFull(c: Cube, ks: seq<CornerSlots>)
    ensures CorrectCount(c, ks) == |ks| <==> forall i :: 0 <= i < |ks| ==> HoldsItsColors(c, ks[i])
  {
    if |ks| > 0 {
      var init := ks[..|ks| - 1];
      CorrectCountFull(c, init);
      assert forall i :: 0 <= i < |init| ==> init[i] == ks[i];
    }
  }

  /** checkCorrectCornerColors: counts the corners holding their colours and asks for four. */
  method CheckCorrectCornerColors(cube: Cube) returns (allCorrect: bool)
    ensures allCorrect <==> forall i :: 0 <= i < |CornerPositions| ==> HoldsItsColors(cube, CornerPositions[i])
  {
    var count := 0;
    for i := 0 to |CornerPositions|
      invariant count == CorrectCount(cube, CornerPositions[..i])
    {
      var k := CornerPositions[i];
      var colors := [Look(cube, k.s1), Look(cube, k.s2), Look(cube, k.s3)];
      if forall col :: col in CorrectCorners(k.position) ==> col in colors {
        count := count + 1;
      }
      assert CornerPositions[..i + 1][..i] == CornerPositions[..i];
    }
    assert CornerPositions[..|CornerPositions|] == CornerPositions;
    CorrectCountFull(cube, CornerPositions);
    allCorrect := count == 4;
  }

  /** solvedLastLayer: the down facelet of every down corner is yellow. */
  function SolvedLastLayer(c: Cube): (solved: bool)
    ensures solved <==> forall k :: k in CornerPositions ==> Look(c, k.s1) == Yellow
  {
    c.At(Down, 0, 2) == Yellow && c.At(Down, 0, 0) == Yellow &&
    c.At(Down, 2, 2) == Yellow && c.At(Down, 2, 0) == Yellow
  }
}
