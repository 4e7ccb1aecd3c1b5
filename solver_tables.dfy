/**
 * The fixed data of the seven-stage solver: the facelets each stage reads,
 * the lookup tables keyed by positions and colours, and the move sequences
 * they hold.
 */
module SolverTables {
  import opened Wrappers
  import opened FaceColor
  import opened MoveNotation
  import opened CubeState

  /**
   * A facelet as the solver's tables name it, `{face, x, y}`. The solver
   * reads it as `cube.at(face, x, y)`, and `at` takes the row first, so
   * `x` is the row and `y` the column.
   */
  datatype Slot = Slot(face: FaceName, x: Index, y: Index)

  /** The colour the solver reads at a slot. */
  function Look(c: Cube, s: Slot): Color
  {
    c.At(s.face, s.x, s.y)
  }

  /** `cube.at(face, x, y) === FACE_COLOR.White`. */
  predicate IsWhite(c: Cube, face: FaceName, x: Index, y: Index)
  {
    c.At(face, x, y) == White
  }

  // ---------------------------------------------------------------------
  // Stage 1: the white cross

  /** One entry of a `SolvingIndex`: while the slot is white, play the moves. */
  datatype SolvingEntry = SolvingEntry(slot: Slot, moves: seq<Move>)

  const WhiteEdgesF: seq<SolvingEntry> := [
    SolvingEntry(Slot(Front, 0, 1), [F, R', F']),
    SolvingEntry(Slot(Front, 1, 2), [R']),
    SolvingEntry(Slot(Front, 2, 1), [F', R', F]),
    SolvingEntry(Slot(Front, 1, 0), [L])
  ]

  const WhiteEdgesR: seq<SolvingEntry> := [
    SolvingEntry(Slot(Right, 0, 1), [R', F, R]),
    SolvingEntry(Slot(Right, 1, 2), [B']),
    SolvingEntry(Slot(Right, 2, 1), [R, F, R']),
    SolvingEntry(Slot(Right, 1, 0), [F])
  ]

  const WhiteEdgesB: seq<SolvingEntry> := [
    SolvingEntry(Slot(Back, 0, 1), [B', R, B]),
    SolvingEntry(Slot(Back, 1, 2), [L']),
    SolvingEntry(Slot(Back, 2, 1), [B, R, B']),
    SolvingEntry(Slot(Back, 1, 0), [R])
  ]

  const WhiteEdgesL: seq<SolvingEntry> := [
    SolvingEntry(Slot(Left, 0, 1), [L, F', L']),
    SolvingEntry(Slot(Left, 1, 2), [F']),
    SolvingEntry(Slot(Left, 2, 1), [L', F', L]),
    SolvingEntry(Slot(Left, 1, 0), [B])
  ]

  /**
   * One condition group of an adjustment helper: with `a` white and `b`
   * not, a quarter turn; with `a` and `b` white and `c` not, the
   * counterclockwise turn; with all three white, the half turn.
   */
  function Pick(a: bool, b: bool, c: bool, face: FaceName): (m: Option<Move>)
    ensures m.Some? <==> a
    ensures m.Some? ==> GetRotateNotationDetail(m.value).face == face
  {
    if a && !b then Some(MoveOf(face, Clockwise))
    else if a && b && !c then Some(MoveOf(face, Counterclockwise))
    else if a && b && c then Some(MoveOf(face, Diagonal))
    else None
  }

  /** Two condition groups, the first tried first; `null` when neither fires. */
  function Adjustment(trigger1: bool, first: Option<Move>, trigger2: bool, second: Option<Move>): (m: Option<Move>)
    ensures m.Some? <==> (trigger1 && first.Some?) || (trigger2 && second.Some?)
    ensures m.Some? ==> m == first || m == second
  {
    if trigger1 && first.Some? then first
    else if trigger2 then second
    else None
  }

  /** getUAdjustmentForFandB: the U turn made before an F or B edge insertion. */
  function UAdjustmentForFandB(c: Cube): (m: Option<Move>)
    ensures m.Some? ==> GetRotateNotationDetail(m.value).face == Up
    ensures m.Some? ==> IsWhite(c, Up, 1, 2) || IsWhite(c, Up, 1, 0)
  {
    Adjustment(
      IsWhite(c, Front, 2, 1) || IsWhite(c, Back, 2, 1) || IsWhite(c, Front, 1, 2) || IsWhite(c, Back, 1, 0),
      Pick(IsWhite(c, Up, 1, 2), IsWhite(c, Up, 0, 1), IsWhite(c, Up, 2, 1), Up),
      IsWhite(c, Front, 1, 0) || IsWhite(c, Back, 1, 2),
      Pick(IsWhite(c, Up, 1, 0), IsWhite(c, Up, 2, 1), IsWhite(c, Up, 0, 1), Up))
  }

  /** getDAdjustmentForFandB: the D turn made before an F or B edge insertion. */
  function DAdjustmentForFandB(c: Cube): (m: Option<Move>)
    ensures m.Some? ==> GetRotateNotationDetail(m.value).face == Down
    ensures m.Some? ==> IsWhite(c, Down, 1, 2) || IsWhite(c, Down, 1, 0)
  {
    Adjustment(
      IsWhite(c, Front, 0, 1) || IsWhite(c, Back, 0, 1) || IsWhite(c, Front, 1, 2) || IsWhite(c, Back, 1, 0),
      Pick(IsWhite(c, Down, 1, 2), IsWhite(c, Down, 0, 1), IsWhite(c, Down, 2, 1), Down),
      IsWhite(c, Front, 1, 0) || IsWhite(c, Back, 1, 2),
      Pick(IsWhite(c, Down, 1, 0), IsWhite(c, Down, 2, 1), IsWhite(c, Down, 0, 1), Down))
  }

  /** getUAdjustmentForRandL: the U turn made before an R or L edge insertion. */
  function UAdjustmentForRandL(c: Cube): (m: Option<Move>)
    ensures m.Some? ==> GetRotateNotationDetail(m.value).face == Up
    ensures m.Some? ==> IsWhite(c, Up, 2, 1) || IsWhite(c, Up, 0, 1)
  {
    Adjustment(
      IsWhite(c, Right, 2, 1) || IsWhite(c, Left, 2, 1) || IsWhite(c, Left, 1, 2) || IsWhite(c, Right, 1, 0),
      Pick(IsWhite(c, Up, 2, 1), IsWhite(c, Up, 1, 2), IsWhite(c, Up, 1, 0), Up),
      IsWhite(c, Left, 1, 0) || IsWhite(c, Right, 1, 2),
      Pick(IsWhite(c, Up, 0, 1), IsWhite(c, Up, 1, 0), IsWhite(c, Up, 1, 2), Up))
  }

  /** getDAdjustmentForRandL: the D turn made before an R or L edge insertion. */
  function DAdjustmentForRandL(c: Cube): (m: Option<Move>)
    ensures m.Some? ==> GetRotateNotationDetail(m.value).face == Down
    ensures m.Some? ==> IsWhite(c, Down, 0, 1) || IsWhite(c, Down, 2, 1)
  {
    Adjustment(
      IsWhite(c, Right, 0, 1) || IsWhite(c, Left, 0, 1) || IsWhite(c, Left, 1, 2) || IsWhite(c, Right, 1, 0),
      Pick(IsWhite(c, Down, 0, 1), IsWhite(c, Down, 1, 0), IsWhite(c, Down, 1, 2), Down),
      IsWhite(c, Left, 1, 0) || IsWhite(c, Right, 1, 2),
      Pick(IsWhite(c, Down, 2, 1), IsWhite(c, Down, 1, 2), IsWhite(c, Down, 1, 0), Down))
  }

  /** The keys of `edgeMoves`, in their insertion order. */
  const EdgeMoveKeys: seq<Slot> := [Slot(Down, 0, 1), Slot(Down, 1, 2), Slot(Down, 2, 1), Slot(Down, 1, 0)]

  /** getAdjacentFace: the side face next to a down edge; the other keys throw. */
  function AdjacentFace(key: Slot): (face: FaceName)
    requires key in EdgeMoveKeys
    ensures face in {Front, Right, Back, Left}
  {
    if key == Slot(Down, 0, 1) then Front
    else if key == Slot(Down, 1, 2) then Right
    else if key == Slot(Down, 2, 1) then Back
    else Left
  }

  /** `edgeMoves[key][color]`: how a white down edge with this side colour goes up. */
  function EdgeMoves(key: Slot, color: Color): (moves: Option<seq<Move>>)
    ensures moves.Some? ==> color in {Green, Red, Orange, Blue}
  {
    if key == Slot(Down, 0, 1) then
      match color
      case Green => Some([F2])
      case Red => Some([D, R2])
      case Orange => Some([D', L2])
      case Blue => Some([D2, B2])
      case _ => None
    else if key == Slot(Down, 1, 2) then
      match color
      case Red => Some([R2])
      case Blue => Some([D, B2])
      case Green => Some([D', F2])
      case Orange => Some([D2, L2])
      case _ => None
    else if key == Slot(Down, 2, 1) then
      match color
      case Blue => Some([B2])
      case Orange => Some([D, L2])
      case Red => Some([D', R2])
      case Green => Some([D2, F2])
      case _ => None
    else if key == Slot(Down, 1, 0) then
      match color
      case Orange => Some([L2])
      case Green => Some([D, F2])
      case Blue => Some([D', B2])
      case Red => Some([D2, R2])
      case _ => None
    else None
  }

  /** `correctEdges`: the colour each side face's top edge must show, in order F, R, B, L. */
  const CorrectEdges: seq<(FaceName, Color)> := [(Front, Green), (Right, Red), (Back, Blue), (Left, Orange)]

  // ---------------------------------------------------------------------
  // Corner positions (stages 2 and 6)

  datatype CornerName = DRF | DLF | DRB | DLB

  /** A down corner and its three facelets: the D facelet, then the two sides. */
  datatype CornerSlots = CornerSlots(position: CornerName, s1: Slot, s2: Slot, s3: Slot)

  /** `cornerPositions`, in the order DRF, DLF, DRB, DLB. */
  const CornerPositions: seq<CornerSlots> := [
    CornerSlots(DRF, Slot(Down, 0, 2), Slot(Right, 2, 0), Slot(Front, 2, 2)),
    CornerSlots(DLF, Slot(Down, 0, 0), Slot(Left, 2, 2), Slot(Front, 2, 0)),
    CornerSlots(DRB, Slot(Down, 2, 2), Slot(Right, 2, 2), Slot(Back, 2, 0)),
    CornerSlots(DLB, Slot(Down, 2, 0), Slot(Left, 2, 0), Slot(Back, 2, 2))
  ]

  /** The three colours of a corner, in the order of its slots. */
  function CornerColors(c: Cube, k: CornerSlots): (colors: seq<Color>)
    ensures |colors| == 3
  {
    [Look(c, k.s1), Look(c, k.s2), Look(c, k.s3)]
  }

  // ---------------------------------------------------------------------
  // Stage 2: the white layer

  /** The four keys a normalised white-corner colour string can match. */
  datatype CornerKey = WBR | WBO | WGO | WGR

  /** The key a normalised colour string matches, if any. */
  function CornerKeyOf(colorKey: seq<Color>): (key: Option<CornerKey>)
    ensures key == Some(WBR) <==> colorKey == [White, Blue, Red]
    ensures key == Some(WBO) <==> colorKey == [White, Blue, Orange]
    ensures key == Some(WGO) <==> colorKey == [White, Green, Orange]
    ensures key == Some(WGR) <==> colorKey == [White, Green, Red]
  {
    if colorKey == [White, Blue, Red] then Some(WBR)
    else if colorKey == [White, Blue, Orange] then Some(WBO)
    else if colorKey == [White, Green, Orange] then Some(WGO)
    else if colorKey == [White, Green, Red] then Some(WGR)
    else None
  }

  /**
   * `correctCornerPositions[position][colorKey]`: the D turn that brings the
   * corner under its slot; `None` for the empty entries.
   */
  function CornerPositionMove(position: CornerName, key: CornerKey): (m: Option<Move>)
    ensures m.Some? ==> GetRotateNotationDetail(m.value).face == Down
  {
    match (position, key)
    case (DRF, WBR) => Some(D)  case (DRF, WBO) => Some(D2) case (DRF, WGO) => Some(D') case (DRF, WGR) => None
    case (DLF, WBR) => Some(D2) case (DLF, WBO) => Some(D') case (DLF, WGO) => None     case (DLF, WGR) => Some(D)
    case (DLB, WBR) => Some(D') case (DLB, WBO) => None     case (DLB, WGO) => Some(D)  case (DLB, WGR) => Some(D2)
    case (DRB, WBR) => None     case (DRB, WBO) => Some(D)  case (DRB, WGO) => Some(D2) case (DRB, WGR) => Some(D')
  }

  /** `insertMapping` of the white layer: the facelet read to choose the insertion. */
  function CornerInsertSlot(key: CornerKey): (s: Slot)
    ensures s.x == 2 && s.y == 2
  {
    match key
    case WBR => Slot(Right, 2, 2)
    case WBO => Slot(Back, 2, 2)
    case WGO => Slot(Left, 2, 2)
    case WGR => Slot(Front, 2, 2)
  }

  /** `insertCorner[insertKey][color]`: the moves that put the corner in place. */
  function InsertCorner(insertKey: Slot, color: Color): (moves: Option<seq<Move>>)
    ensures moves.Some? ==> |moves.value| > 0
  {
    if insertKey == Slot(Left, 2, 2) then
      match color
      case White => Some([D', F', D, F])
      case Orange => Some([D, L, D', L'])
      case Green => Some([D, L, D2, L', D, L, D', L'])
      case _ => None
    else if insertKey == Slot(Front, 2, 2) then
      match color
      case White => Some([D', R', D, R])
      case Red => Some([D', R', D2, R, D', R', D, R])
      case Green => Some([D, F, D', F'])
      case _ => None
    else if insertKey == Slot(Right, 2, 2) then
      match color
      case White => Some([D', B', D, B])
      case Blue => Some([D', B', D2, B, D', B', D, B])
      case Red => Some([D, R, D', R'])
      case _ => None
    else if insertKey == Slot(Back, 2, 2) then
      match color
      case White => Some([D', L', D, L])
      case Orange => Some([D', L', D2, L, D', L', D, L])
      case Blue => Some([D, B, D', B'])
      case _ => None
    else None
  }

  /** One entry of fixUpperLayer / fixFlippedEdge: two conditions and the moves. */
  datatype FixEntry = FixEntry(condition: bool, condition2: bool, move: seq<Move>)

  /** `upperLayerCorners`, in the order URF, ULF, URB, ULB. */
  function UpperLayerCorners(c: Cube): (entries: seq<FixEntry>)
    ensures |entries| == 4
  {
    [FixEntry(c.At(Up, 2, 2) != White, c.At(Front, 0, 2) != Green, [R', D', R]),
     FixEntry(c.At(Up, 2, 0) != White, c.At(Left, 0, 2) != Orange, [L, D, L']),
     FixEntry(c.At(Up, 0, 2) != White, c.At(Right, 0, 2) != Red, [R, D, R']),
     FixEntry(c.At(Up, 0, 0) != White, c.At(Back, 0, 2) != Blue, [L', D', L])]
  }

  // ---------------------------------------------------------------------
  // Edge positions (stages 3 to 5)

  datatype EdgeName = DF | DR | DL | DB

  /** A down edge and its two facelets: the D facelet, then the side. */
  datatype EdgeSlots = EdgeSlots(position: EdgeName, s1: Slot, s2: Slot)

  /** `edgePositions` of findEdges, in the order DF, DR, DL, DB. */
  const EdgePositions: seq<EdgeSlots> := [
    EdgeSlots(DF, Slot(Down, 0, 1), Slot(Front, 2, 1)),
    EdgeSlots(DR, Slot(Down, 1, 2), Slot(Right, 2, 1)),
    EdgeSlots(DL, Slot(Down, 1, 0), Slot(Left, 2, 1)),
    EdgeSlots(DB, Slot(Down, 2, 1), Slot(Back, 2, 1))
  ]

  /** The two colours of an edge, D facelet first. */
  function EdgeColors(c: Cube, e: EdgeSlots): (colors: seq<Color>)
    ensures |colors| == 2
  {
    [Look(c, e.s1), Look(c, e.s2)]
  }

  // ---------------------------------------------------------------------
  // Stage 3: the second layer

  /** The eight two-letter keys of `correctEdgePositions`. */
  datatype EdgeKey = OG | GO | BR | RB | RG | GR | BO | OB

  /** The key a two-colour string matches, if any. */
  function EdgeKeyOf(colors: seq<Color>): (key: Option<EdgeKey>)
    ensures key.Some? ==> |colors| == 2 && colors[0] != colors[1]
    ensures key.Some? ==> White !in colors && Yellow !in colors
  {
    if colors == [Orange, Green] then Some(OG)
    else if colors == [Green, Orange] then Some(GO)
    else if colors == [Blue, Red] then Some(BR)
    else if colors == [Red, Blue] then Some(RB)
    else if colors == [Red, Green] then Some(RG)
    else if colors == [Green, Red] then Some(GR)
    else if colors == [Blue, Orange] then Some(BO)
    else if colors == [Orange, Blue] then Some(OB)
    else None
  }

  /** `correctEdgePositions[position][colors]`; `None` for the empty entries. */
  function EdgePositionMove(position: EdgeName, key: EdgeKey): (m: Option<Move>)
    ensures m.Some? ==> GetRotateNotationDetail(m.value).face == Down
  {
    match position
    case DF =>
      (match key
       case OG => None case GO => Some(D') case BR => Some(D) case RB => Some(D2)
       case RG => None case GR => Some(D) case BO => Some(D') case OB => Some(D2))
    case DR =>
      (match key
       case OG => Some(D') case GO => Some(D2) case BR => None case RB => Some(D)
       case RG => Some(D') case GR => None case BO => Some(D2) case OB => Some(D))
    case DL =>
      (match key
       case OG => Some(D) case GO => None case BR => Some(D2) case RB => Some(D')
       case RG => Some(D) case GR => Some(D2) case BO => None case OB => Some(D'))
    case DB =>
      (match key
       case OG => Some(D2) case GO => Some(D) case BR => Some(D') case RB => None
       case RG => Some(D2) case GR => Some(D') case BO => Some(D) case OB => None)
  }

  /** `insertMapping` of the second layer: the down facelet read to choose the insertion. */
  function EdgeInsertSlot(key: EdgeKey): (s: Slot)
    ensures s in EdgeMoveKeys
  {
    match key
    case OG => Slot(Down, 0, 1) case RG => Slot(Down, 0, 1)
    case GR => Slot(Down, 1, 2) case BR => Slot(Down, 1, 2)
    case BO => Slot(Down, 1, 0) case GO => Slot(Down, 1, 0)
    case RB => Slot(Down, 2, 1) case OB => Slot(Down, 2, 1)
  }

  /** `insertEdge[insertKey][color]`: the moves that put the edge in the middle layer. */
  function InsertEdge(insertKey: Slot, color: Color): (moves: Option<seq<Move>>)
    ensures moves.Some? ==> |moves.value| == 8
  {
    if insertKey == Slot(Down, 0, 1) then
      match color
      case Orange => Some([D, L, D', L', D', F', D, F])
      case Red => Some([D', R', D, R, D, F, D', F'])
      case _ => None
    else if insertKey == Slot(Down, 1, 2) then
      match color
      case Green => Some([D, F, D', F', D', R', D, R])
      case Blue => Some([D', B', D, B, D, R, D', R'])
      case _ => None
    else if insertKey == Slot(Down, 1, 0) then
      match color
      case Blue => Some([D, B, D', B', D', L', D, L])
      case Green => Some([D', F', D, F, D, L, D', L'])
      case _ => None
    else if insertKey == Slot(Down, 2, 1) then
      match color
      case Red => Some([D, R, D', R', D', B', D, B])
      case Orange => Some([D', L', D, L, D, B, D', B'])
      case _ => None
    else None
  }

  /** `unOrientedEdge`, in the order FR, FL, BR, BL. */
  function UnOrientedEdges(c: Cube): (entries: seq<FixEntry>)
    ensures |entries| == 4
  {
    [FixEntry(c.At(Front, 1, 2) != Green, c.At(Right, 1, 0) != Red, [R', D, R, D, F, D', F']),
     FixEntry(c.At(Front, 1, 0) != Green, c.At(Left, 1, 2) != Orange, [L, D', L', D', F', D, F]),
     FixEntry(c.At(Back, 1, 0) != Blue, c.At(Right, 1, 2) != Red, [R, D', R', D', B', D, B]),
     FixEntry(c.At(Back, 1, 2) != Blue, c.At(Left, 1, 0) != Orange, [L', D, L, D, B, D', B'])]
  }

  // ---------------------------------------------------------------------
  // Stage 4: the yellow cross

  /** The position names, as the strings the key is sorted and joined from. */
  function EdgeNameString(e: EdgeName): (s: string)
    ensures |s| == 2 && s[0] == 'D' && ' ' !in s
  {
    match e
    case DF => "DF"
    case DR => "DR"
    case DL => "DL"
    case DB => "DB"
  }

  /** `yellowEdgePositions`: the side facelet of each down edge, in the order DF, DR, DL, DB. */
  const YellowEdgePositions: seq<(EdgeName, Slot)> := [
    (DF, Slot(Front, 2, 1)), (DR, Slot(Right, 2, 1)), (DL, Slot(Left, 2, 1)), (DB, Slot(Back, 2, 1))
  ]

  /** `yellowEdgeSolutions[yellowEdgeKey]`. */
  function YellowEdgeSolution(key: string): (moves: Option<seq<Move>>)
    ensures moves.Some? ==> |key| == 0 || |key| == 5
  {
    if key == "" then Some([F', R', D', R, D, F, D2, F', R', D', R, D, R', D', R, D, F])
    else if key == "DF DR" then Some([D2, F', R', D', R, D, R', D', R, D, F])
    else if key == "DF DL" then Some([D', F', R', D', R, D, R', D', R, D, F])
    else if key == "DB DR" then Some([D, F', R', D', R, D, R', D', R, D, F])
    else if key == "DB DL" then Some([F', R', D', R, D, R', D', R, D, F])
    else if key == "DB DF" then Some([D', F', R', D', R, D, F])
    else if key == "DL DR" then Some([F', R', D', R, D, F])
    else None
  }

  // ---------------------------------------------------------------------
  // Stage 5: the cross colours

  /** An entry of `edgePositions` of findGreenEdgeAndSides. */
  datatype GreenEdgeSlots = GreenEdgeSlots(position: EdgeName, slot: Slot, left: FaceName, right: FaceName)

  const GreenEdgePositions: seq<GreenEdgeSlots> := [
    GreenEdgeSlots(DF, Slot(Front, 2, 1), Left, Right),
    GreenEdgeSlots(DR, Slot(Right, 2, 1), Front, Back),
    GreenEdgeSlots(DL, Slot(Left, 2, 1), Back, Front),
    GreenEdgeSlots(DB, Slot(Back, 2, 1), Right, Left)
  ]

  /** The 15-move prefix of the "R,O" entries. */
  const SwapAcross: seq<Move> := [R', D', R, D', R', D2, R, D, R', D', R, D', R', D2, R]

  /** The seven-move edge cycle the other entries are built from. */
  const EdgeCycle: seq<Move> := [R', D', R, D', R', D2, R]

  /** `adjustmentMoves[position][edgeColors]` with the key `left,right`. */
  function AdjustmentMoves(position: EdgeName, left: Color, right: Color): (moves: Option<seq<Move>>)
    ensures moves.Some? ==> left in {Orange, Red, Blue} && right in {Orange, Red, Blue} && left != right
  {
    match (left, right)
    case (Orange, Red) =>
      (match position case DF => Some([]) case DR => Some([D']) case DL => Some([D]) case DB => Some([D2]))
    case (Orange, Blue) =>
      (match position
       case DF => Some([D2] + EdgeCycle + [D])
       case DR => Some([D] + EdgeCycle + [D])
       case DL => Some([D'] + EdgeCycle + [D])
       case DB => Some(EdgeCycle + [D]))
    case (Red, Orange) =>
      (match position
       case DF => Some(SwapAcross + [D2])
       case DR => Some(SwapAcross + [D'])
       case DL => Some(SwapAcross + [D])
       case DB => Some(SwapAcross))
    case (Red, Blue) =>
      (match position
       case DF => Some(EdgeCycle)
       case DR => Some([D'] + EdgeCycle)
       case DL => Some([D] + EdgeCycle)
       case DB => Some([D2] + EdgeCycle))
    case (Blue, Red) =>
      (match position
       case DF => Some([D] + EdgeCycle + [D2])
       case DR => Some(EdgeCycle + [D2])
       case DL => Some([D2] + EdgeCycle + [D2])
       case DB => Some([D'] + EdgeCycle + [D2]))
    case (Blue, Orange) =>
      (match position
       case DF => Some([D'] + EdgeCycle + [D'])
       case DR => Some([D2] + EdgeCycle + [D'])
       case DL => Some(EdgeCycle + [D'])
       case DB => Some([D] + EdgeCycle + [D']))
    case _ => None
  }

  // ---------------------------------------------------------------------
  // Stage 6: the yellow corners

  /** `correctCorners[position]`: the colours the corner holds when it is in place. */
  function CorrectCorners(position: CornerName): (colors: seq<Color>)
    ensures |colors| == 3 && colors[2] == Yellow
  {
    match position
    case DRF => [Green, Red, Yellow]
    case DLF => [Green, Orange, Yellow]
    case DRB => [Blue, Red, Yellow]
    case DLB => [Blue, Orange, Yellow]
  }

  /** `correctDRFColors[position]`: what the DRF corner must hold after one algorithm. */
  function CorrectDRFColors(position: CornerName): (colors: seq<Color>)
    ensures |colors| == 3 && colors[2] == Yellow
  {
    match position
    case DRF => [Blue, Red, Yellow]
    case DLF => [Green, Red, Yellow]
    case DRB => [Blue, Orange, Yellow]
    case DLB => [Orange, Green, Yellow]
  }

  /** The corner cycle R' D L D' R D L' D'. */
  const MainAlgorithm: seq<Move> := [R', D, L, D', R, D, L', D']

  /** `positionAdjustments`: the D turn that brings the correct corner to DLF. */
  function PositionAdjustment(position: CornerName): (m: Option<Move>)
    ensures m.None? <==> position == DLF
  {
    match position
    case DRF => Some(D')
    case DRB => Some(D2)
    case DLB => Some(D)
    case DLF => None
  }

  /** `finalAdjustments`: the D turn that undoes the position adjustment. */
  function FinalAdjustment(position: CornerName): (m: Option<Move>)
    ensures m.None? <==> position == DLF
  {
    match position
    case DRF => Some(D)
    case DRB => Some(D2)
    case DLB => Some(D')
    case DLF => None
  }

  // ---------------------------------------------------------------------
  // Stage 7: the last layer

  /** `lastAlgorithm`: R U R' U' twice, which twists the DRF corner. */
  const LastAlgorithm: seq<Move> := [R, U, R', U', R, U, R', U']

  /** `lastAdjustment[color]`: the D turn that lines up the last layer. */
  function LastAdjustment(color: Color): (m: Option<Move>)
    ensures m.Some? <==> color in {Red, Orange, Blue}
  {
    match color
    case Red => Some(D')
    case Orange => Some(D)
    case Blue => Some(D2)
    case _ => None
  }
}
