# Cube Clarity core, modelled in Dafny

Cube Clarity is a Rubik's cube helper. Its core is a 3x3x3 facelet model of
the cube: six faces U, D, F, B, L, R, each a 3x3 grid of the six colours
W, Y, G, B, O, R. On top of that model sit:

- a move engine for the 18 quarter and half turns;
- a 27-byte codec that packs two 4-bit colour codes per byte;
- a parser for space-separated move notation;
- `moveInvert`, which the guide uses to undo a move;
- the unfolded net printed for a cube;
- a seven-stage beginner's-method solver that pattern-matches facelets against
  fixed tables and plays move sequences.

This project models that core and proves its properties.

Modules, one per file:

- wrappers.dfy: `Option` and `Result`.
- errors.dfy: the error taxonomy:
  - the decode-length error;
  - the colour error;
  - the bad-move-notation error.
- `face_color.dfy`: the colours, with their letters, hex values and 4-bit
  codes (`RubikCubeFaceColor.ts`).
- `move_notation.dfy`: the 18 moves and their tokens, and the parser.
  - `getRotateNotationDetail` comes from the core workspace's `MoveNotation.ts`.
  - The front workspace's `MoveNotation.ts` is the same parser under other local
    names, so one model serves both copies.
- `cube_state.dfy`: the cube as a value and the move table as the function `Turn`.
  - A `Face` holds nine named cells and a `Cube` six faces.
  - `At(face, y, x)` takes the row first, as `at` does.
  - The solver calls `at(face, x, y)` with the names swapped. The solver
    modules therefore read a table slot `{face, x, y}` as row `x`, column `y`.
- `move_engine.dfy`: the algebra of the move table:
  - X' undoes X, X2 is X twice, and X four times is the identity;
  - centres stay fixed;
  - the opposite face is untouched;
  - colour counts are preserved;
  - rotateCube is a left fold.
- `rubik_cube.dfy`: the `RubikCube` object. Its `cubeState` field is
  reassigned by its methods.
  - `RotateCubeOnce` clones the receiver. It then overwrites facelets of the
    clone one source assignment at a time, reading only from the receiver. It
    is proved equal to `Turn`.
  - The older `lib/rubikcube/RubikCube.ts` class has the same move table, case
    for case, and the same `default`, `clone`, `at` and `rotateCube`. It is
    modelled by the same class.
- codec.dfy: `encode` and `decode`, with both round trips and the solved-cube
  byte vector.
- helper.dfy: `collectResult` (both copies are the same code) and `rubikCubeNet`.
- `move_invert.dfy`: `moveInvert`.
- `solver_tables.dfy`, `solver_search.dfy`, `solver.dfy`: the solver
  (`RubikCubeSolver.ts`).
  - Each stage is a method that reassigns a local cube and appends to its move
    list, as the source does.
  - Each stage ensures that its moves are exactly those of a specification
    function of its input, and that the cube it returns is its input with
    those moves applied:
    - stage 1: `WhiteCrossMoves`, the `while` loops run in the source's order;
    - stages 2 and 3: `Repeat` of one pass (`WhiteLayerPass`,
      `SecondLayerPass`) until a pass plays nothing; the cube returned is
      settled;
    - stages 4 to 6: `YellowCrossMoves`, `CrossColorMoves`, `YellowCornerMoves`;
    - stage 7: four passes whose run counts are the least that work.
  - `SolveRubikCube` ensures that every stage starts where the previous one
    ended and plays what its specification function gives from there.
  - Some loop methods take the specification function as a ghost parameter
    (`slot`, `pass`, `place`). A `requires` makes it equal to the stage's own
    function, and the only caller passes exactly that function. This keeps
    the loop's proof from unfolding the function's definition.
  - The finders and checks are methods with loops, proved against
    specification functions.
  - The lookup tables are functions over the source's keys.

Turns are values. The source's U and D cases copy whole row arrays into the
clone, so the clone shares rows with the receiver. That sharing never matters,
because every move clones before it writes, and a value model has no sharing
at all.

## Model

| member | source | states |
|---|---|---|
| `FaceColor.Letter` | workspaces/cube-clarity-front/src/lib/rubikcube/RubikCube/RubikCubeFaceColor.ts:8-15 | every colour's letter is one of `W Y G B O R`; `LetterInjective` adds that distinct colours get distinct letters |
| `FaceColor.LetterInjective` | workspaces/cube-clarity-front/src/lib/rubikcube/RubikCube/RubikCubeFaceColor.ts:8-15 | two colours have the same letter exactly when they are the same colour |
| `FaceColor.ToHex` | workspaces/cube-clarity-front/src/lib/rubikcube/RubikCube/RubikCubeFaceColor.ts:19-34 | the hex value fits in 24 bits (RGB) |
| `FaceColor.ToHexInjective` | workspaces/cube-clarity-front/src/lib/rubikcube/RubikCube/RubikCubeFaceColor.ts:19-34 | the six colours are drawn in six distinct hex values, in both directions |
| `FaceColor.EncodeColor` | workspaces/cube-clarity-front/src/lib/rubikcube/RubikCube/RubikCubeFaceColor.ts:39-54 | W, Y, G, B, O, R get the codes 0, 1, 2, 3, 4, 5, each as an if-and-only-if; every code is below 16 |
| `FaceColor.EncodeColorInjective` | workspaces/cube-clarity-front/src/lib/rubikcube/RubikCube/RubikCubeFaceColor.ts:39-54 | the codes are distinct: equal codes mean equal colours |
| `FaceColor.DecodeColor` | workspaces/cube-clarity-front/src/lib/rubikcube/RubikCube/RubikCubeFaceColor.ts:59-78 | decoding succeeds exactly for 0..5, the colour it gives encodes back to the number, and every other number is a colour error carrying it |
| `FaceColor.DecodeEncodeColor` | workspaces/cube-clarity-front/src/lib/rubikcube/RubikCube/RubikCubeFaceColor.ts:39-74 | decoding the code of any colour gives that colour back |
| `FaceColor.DecodeRejectsHighNibbles` | workspaces/cube-clarity-front/src/lib/rubikcube/RubikCube/RubikCubeFaceColor.ts:75-76 | each nibble value 6..15 is rejected with the colour error for that value |
| `CubeState.Face.Cells` | workspaces/cube-clarity-front/src/lib/rubikcube/RubikCube/RubikCube.ts:18-39 | a face's nine facelets row by row: cell `3y + x` is row `y`, column `x` |
| `CubeState.Uniform` | workspaces/cube-clarity-front/src/lib/rubikcube/RubikCube/RubikCube.ts:80-103 | a face filled with one colour: every cell has that colour |
| `CubeState.Default` | workspaces/cube-clarity-front/src/lib/rubikcube/RubikCube/RubikCube.ts:80-103 | every facelet of U is W, of D Y, of F G, of B B, of L O and of R R |
| `CubeState.Faces` | workspaces/cube-clarity-front/src/lib/rubikcube/RubikCube/RubikCube.ts:510-519 | the iterator yields six faces, in the order U, D, F, B, L, R |
| `CubeState.Facelets` | workspaces/cube-clarity-front/src/lib/rubikcube/RubikCube/RubikCube.ts:134-139 | the flattened iterator: 54 facelets, face `k` of U, D, F, B, L, R occupying positions `9k..9k+9` row by row |
| `CubeState.FaceletAt` | workspaces/cube-clarity-front/src/lib/rubikcube/RubikCube/RubikCube.ts:134-139 | flattened facelet `9k + 3y + x` is `at(face k, y, x)` |
| `CubeState.FaceFrom` | workspaces/cube-clarity-front/src/lib/rubikcube/RubikCube/RubikCube.ts:183-189 | reshaping nine facelets with `chunked(3)` gives a face whose rows are those facelets |
| `CubeState.FromFacelets` | workspaces/cube-clarity-front/src/lib/rubikcube/RubikCube/RubikCube.ts:183-210 | reshaping 54 facelets with `chunked(9)` into U, D, F, B, L, R gives a cube whose flattening is those facelets |
| `CubeState.FromFaceletsOfFacelets` | workspaces/cube-clarity-front/src/lib/rubikcube/RubikCube/RubikCube.ts:183-210 | flattening a cube and reshaping it gives the same cube back |
| `CubeState.Turn` | workspaces/cube-clarity-front/src/lib/rubikcube/RubikCube/RubikCube.ts:298-471 | rotateCubeOnce's switch, one case per move: no move changes any of the six centre facelets `[1][1]`; the undo, order-four, opposite-face and colour-count properties of the table are the MoveEngine lemmas |
| `CubeState.Apply` | workspaces/cube-clarity-front/src/lib/rubikcube/RubikCube/RubikCube.ts:484-488 | rotateCube's `reduce`; it has no contract of its own: `MoveEngine.ApplyNothing`, `ApplyOne` and `ApplyAppend` state that it is the left fold of Turn, and `ApplyKeepsColourCounts` that it keeps every colour count |
| `MoveEngine.Opposite` | workspaces/cube-clarity-front/src/lib/rubikcube/RubikCube/RubikCube.ts:302-468 | the face opposite a face is a different face |
| `MoveEngine.QuarterTurnsUndoEachOther` | workspaces/cube-clarity-front/src/lib/rubikcube/RubikCube/RubikCube.ts:302-321 | for every face X, X' undoes X and X undoes X' |
| `MoveEngine.HalfTurnIsTwoQuarterTurns` | workspaces/cube-clarity-front/src/lib/rubikcube/RubikCube/RubikCube.ts:323-331 | for every face X, X2 is X applied twice, and X2 undoes itself |
| `MoveEngine.QuarterTurnHasOrderFour` | workspaces/cube-clarity-front/src/lib/rubikcube/RubikCube/RubikCube.ts:302-468 | X applied four times is the identity, and X' is X applied three times |
| `MoveEngine.CounterclockwiseHasOrderFour` | workspaces/cube-clarity-front/src/lib/rubikcube/RubikCube.ts:211-377 | X' applied four times is the identity (the older table is identical case for case) |
| `MoveEngine.TwoCounterclockwiseUndoHalfTurn` | workspaces/cube-clarity-front/src/components/CubeGuide/moveInvert.ts:34-40 | X' applied twice undoes X2, which is what moveInvert returns for X2 |
| `MoveEngine.CentresFixed` | workspaces/cube-clarity-front/src/lib/rubikcube/RubikCube/RubikCube.ts:302-468 | no move changes any of the six centre facelets `[1][1]` |
| `MoveEngine.OppositeFaceUntouched` | workspaces/cube-clarity-front/src/lib/rubikcube/RubikCube/RubikCube.ts:302-468 | a move leaves the face opposite the turned one unchanged; R never touches L, and so on |
| `MoveEngine.TurnKeepsColourCounts` | workspaces/cube-clarity-front/src/lib/rubikcube/RubikCube/RubikCube.ts:302-468 | every move keeps the number of facelets of each colour |
| `MoveEngine.RightTurnsKeepColourCounts` | workspaces/cube-clarity-front/src/lib/rubikcube/RubikCube/RubikCube.ts:303-332 | the R, R' and R2 cases keep every colour count |
| `MoveEngine.LeftTurnsKeepColourCounts` | workspaces/cube-clarity-front/src/lib/rubikcube/RubikCube/RubikCube.ts:334-363 | the L, L' and L2 cases keep every colour count |
| `MoveEngine.UpTurnsKeepColourCounts` | workspaces/cube-clarity-front/src/lib/rubikcube/RubikCube/RubikCube.ts:365-382 | the U, U' and U2 cases keep every colour count |
| `MoveEngine.DownTurnsKeepColourCounts` | workspaces/cube-clarity-front/src/lib/rubikcube/RubikCube/RubikCube.ts:384-404 | the D, D' and D2 cases keep every colour count |
| `MoveEngine.FrontTurnsKeepColourCounts` | workspaces/cube-clarity-front/src/lib/rubikcube/RubikCube/RubikCube.ts:406-436 | the F, F' and F2 cases keep every colour count |
| `MoveEngine.BackTurnsKeepColourCounts` | workspaces/cube-clarity-front/src/lib/rubikcube/RubikCube/RubikCube.ts:438-468 | the B, B' and B2 cases keep every colour count |
| `MoveEngine.ApplyNothing` | workspaces/cube-clarity-front/src/lib/rubikcube/RubikCube.ts:394-398 | rotateCube of no moves is the cube itself |
| `MoveEngine.ApplyAppend` | workspaces/cube-clarity-front/src/lib/rubikcube/RubikCube/RubikCube.ts:484-488 | rotateCube is a left fold: applying `a ++ b` is applying `a`, then `b` |
| `MoveEngine.ApplyOne` | workspaces/cube-clarity-front/src/lib/rubikcube/RubikCube/RubikCube.ts:484-488 | rotateCube of one move is rotateCubeOnce of that move |
| `MoveEngine.ApplyKeepsColourCounts` | workspaces/cube-clarity-front/src/lib/rubikcube/RubikCube/RubikCube.ts:484-488 | any move sequence keeps the number of facelets of each colour |
| `MoveEngine.UniformCount` | workspaces/cube-clarity-front/src/lib/rubikcube/RubikCube/RubikCube.ts:80-103 | a face of one colour has nine facelets of that colour and none of any other |
| `MoveEngine.SolvedHasNineOfEachColour` | workspaces/cube-clarity-front/src/lib/rubikcube/RubikCube/RubikCube.ts:80-103 | the solved cube has nine facelets of each colour |
| `MoveEngine.ReachableHasNineOfEachColour` | workspaces/cube-clarity-front/src/lib/rubikcube/RubikCube/RubikCube.ts:118-120 | every cube withMoveNotation produces has nine facelets of each colour |
| `RubikCubeClass.RubikCube.constructor` | workspaces/cube-clarity-front/src/lib/rubikcube/RubikCube/RubikCube.ts:222-225 | the new object holds exactly the given faces |
| `RubikCubeClass.RubikCube.Default` | workspaces/cube-clarity-front/src/lib/rubikcube/RubikCube/RubikCube.ts:80-103 | a fresh object holding the solved cube |
| `RubikCubeClass.RubikCube.Clone` | workspaces/cube-clarity-front/src/lib/rubikcube/RubikCube/RubikCube.ts:231-296 | a fresh object, sharing no state with the receiver, that holds the same faces |
| `RubikCubeClass.RubikCube.At` | workspaces/cube-clarity-front/src/lib/rubikcube/RubikCube/RubikCube.ts:494-500 | `at(face, y, x)` takes the row first: it is cell `3y + x` of the face |
| `RubikCubeClass.RubikCube.RotateCubeOnce` | workspaces/cube-clarity-front/src/lib/rubikcube/RubikCube/RubikCube.ts:298-471 | the result is a fresh object holding the receiver turned by the move; the receiver is left unchanged (only the clone is written) |
| `RubikCubeClass.RubikCube.RotateCube` | workspaces/cube-clarity-front/src/lib/rubikcube/RubikCube/RubikCube.ts:484-488 | the result holds the receiver with the moves applied in order; with no moves it is the receiver itself, otherwise a fresh object |
| `RubikCubeClass.RubikCube.WithMoveNotation` | workspaces/cube-clarity-front/src/lib/rubikcube/RubikCube/RubikCube.ts:118-120 | a fresh object holding the solved cube with the moves applied |
| `RubikCubeClass.RubikCube.Net` | workspaces/cube-clarity-front/src/lib/rubikcube/RubikCube/RubikCube.ts:524-532 | the net has 9 rows of 12 cells, facelet `k` of the flattened cube shows its letter, padded to two, at its own cell, and every cell outside the template is blank |
| `RubikCubeClass.ApplyStep` | workspaces/cube-clarity-front/src/lib/rubikcube/RubikCube.ts:394-398 | the fold over the first `i + 1` moves is one more rotateCubeOnce after the fold over the first `i` |
| `Codec.Code` | workspaces/cube-clarity-front/src/lib/rubikcube/RubikCube/RubikCubeFaceColor.ts:39-54 | the byte value of a colour is its 4-bit code |
| `Codec.PackByte` | workspaces/cube-clarity-front/src/lib/rubikcube/RubikCube/RubikCube.ts:140-143 | `encode(left) << 4 | encode(right)`: the high nibble of the byte is the left colour's code and the low nibble the right colour's code |
| `Codec.PackByteSeparates` | workspaces/cube-clarity-front/src/lib/rubikcube/RubikCube/RubikCube.ts:140-143 | `left << 4 \| right` keeps the two codes apart: the high nibble is the left code and the low nibble the right code |
| `Codec.Pack` | workspaces/cube-clarity-front/src/lib/rubikcube/RubikCube/RubikCube.ts:139-143 | an even number of facelets packs into half as many bytes |
| `Codec.PackAt` | workspaces/cube-clarity-front/src/lib/rubikcube/RubikCube/RubikCube.ts:139-143 | byte `i` packs facelets `2i` (high nibble) and `2i + 1` (low nibble) |
| `Codec.Encode` | workspaces/cube-clarity-front/src/lib/rubikcube/RubikCube/RubikCube.ts:134-147 | encode yields exactly 27 bytes |
| `Codec.Nibbles` | workspaces/cube-clarity-front/src/lib/rubikcube/RubikCube/RubikCube.ts:169-172 | `flatMap` turns each byte into two values, so there are twice as many |
| `Codec.NibblesBelow16` | workspaces/cube-clarity-front/src/lib/rubikcube/RubikCube/RubikCube.ts:169-172 | every value the `flatMap` produces is in 0..15 |
| `Codec.Codes` | workspaces/cube-clarity-front/src/lib/rubikcube/RubikCube/RubikCubeFaceColor.ts:39-54 | one code per facelet |
| `Codec.DecodeAll` | workspaces/cube-clarity-front/src/lib/rubikcube/RubikCube/RubikCube.ts:173-175 | one decode result per nibble |
| `Codec.Decode` | workspaces/cube-clarity-front/src/lib/rubikcube/RubikCube/RubikCube.ts:162-166 | a buffer whose length is not 27 gives the decode error carrying that length |
| `Codec.NibblesOfPack` | workspaces/cube-clarity-front/src/lib/rubikcube/RubikCube/RubikCube.ts:134-147 | the nibbles of packed facelets are the facelets' codes, in order |
| `Codec.DecodeEncode` | workspaces/cube-clarity-front/src/lib/rubikcube/RubikCube/RubikCube.ts:134-211 | decode(encode(c)) == Ok(c), with the faces reassembled in the order U, D, F, B, L, R |
| `Codec.ByteFromNibbles` | workspaces/cube-clarity-front/src/lib/rubikcube/RubikCube/RubikCube.ts:140-143 | a byte is rebuilt from its two nibbles |
| `Codec.PackOfNibbles` | workspaces/cube-clarity-front/src/lib/rubikcube/RubikCube/RubikCube.ts:134-147 | facelets whose codes are a buffer's nibbles pack back into that buffer |
| `Codec.DecodeAllOk` | workspaces/cube-clarity-front/src/lib/rubikcube/RubikCube/RubikCube.ts:168-177 | every nibble decodes exactly when every nibble is below 6 |
| `Codec.CodesOfDecoded` | workspaces/cube-clarity-front/src/lib/rubikcube/RubikCube/RubikCube.ts:168-177 | when every nibble decodes, the collected colours carry those nibbles as their codes |
| `Codec.EncodeDecode` | workspaces/cube-clarity-front/src/lib/rubikcube/RubikCube/RubikCube.ts:162-211 | a buffer that decodes is exactly the encoding of what it decodes to (the other round trip) |
| `Codec.DecodeFirstBadNibble` | workspaces/cube-clarity-front/src/lib/rubikcube/RubikCube/RubikCube.ts:168-179 | the first nibble of 6 or more decides the error, whatever follows it |
| `Codec.DecodeOkIff` | workspaces/cube-clarity-front/src/lib/rubikcube/RubikCube/RubikCube.ts:162-211 | a 27-byte buffer decodes exactly when all 54 of its nibbles are below 6 |
| `Codec.DecodeOkWhenCollected` | workspaces/cube-clarity-front/src/lib/rubikcube/RubikCube/RubikCube.ts:162-179 | once the length is right, decode succeeds exactly when collecting the decoded colours of the nibbles succeeds |
| `Codec.PackAppend` | workspaces/cube-clarity-front/src/lib/rubikcube/RubikCube/RubikCube.ts:139-143 | packing splits at any even boundary |
| `Codec.Repeat` | workspaces/cube-clarity-front/src/lib/rubikcube/RubikCube/RubikCube.ts:80-103 | `n` copies of one value: length `n`, every entry that value (the runs of one colour and of one byte in the solved cube's facelets and encoding) |
| `Codec.PackRepeat` | workspaces/cube-clarity-front/src/lib/rubikcube/RubikCube/RubikCube.ts:134-147 | an even run of one colour packs into a run of one byte |
| `Codec.PackTwoFaces` | workspaces/cube-clarity-front/src/lib/rubikcube/RubikCube/RubikCube.ts:134-147 | two uniform faces side by side pack into four pure bytes, one mixed byte and four pure bytes |
| `Codec.SolvedPairBytes` | workspaces/cube-clarity-front/src/lib/rubikcube/RubikCube/RubikCube.ts:140-143 | the nine colour pairs of the solved cube pack into 00, 01, 11, 22, 23, 33, 44, 45 and 55 |
| `Codec.FaceletsSolved` | workspaces/cube-clarity-front/src/lib/rubikcube/RubikCube/RubikCube.ts:80-103 | the solved cube's 54 facelets are nine W, nine Y, nine G, nine B, nine O and nine R, in that order |
| `Codec.EncodeSolved` | workspaces/cube-clarity-front/src/lib/rubikcube/RubikCube/RubikCube.ts:134-147 | encode(default()) is 00 00 00 00 01 11 11 11 11 22 22 22 22 23 33 33 33 33 44 44 44 44 45 55 55 55 55 |
| `Helper.Collect` | workspaces/cube-clarity-core/lib/rubikcube/helper.ts:16-33 | on success there is one value per input element |
| `Helper.CollectAllOk` | workspaces/cube-clarity-front/src/lib/rubikcube/RubikCube/helper.ts:14-31 | with no error in the stream the result is Ok of every value, in input order |
| `Helper.CollectFirstErr` | workspaces/cube-clarity-core/lib/rubikcube/helper.ts:26-27 | the first error in the stream is the result, whatever follows it |
| `Helper.CollectOkIffAllOk` | workspaces/cube-clarity-core/lib/rubikcube/helper.ts:16-33 | the result is Ok exactly when no element is an error |
| `Helper.FirstErrExists` | workspaces/cube-clarity-front/src/lib/rubikcube/RubikCube/helper.ts:24-25 | a stream with an error has a first error |
| `Helper.CollectResult` | workspaces/cube-clarity-core/lib/rubikcube/helper.ts:16-34 | the loop returns the collected result, and an error result is the error of the first failing element |
| `Helper.CollectEmpty` | workspaces/cube-clarity-front/src/lib/rubikcube/RubikCube/helper.ts:18-22 | an empty stream gives Ok([]) |
| `Helper.PadStart` | workspaces/cube-clarity-core/lib/rubikcube/helper.ts:37-43 | `padStart(2)`: strings shorter than two get leading spaces up to width two, longer ones are kept, and the original string is the suffix |
| `Helper.NetLayout` | workspaces/cube-clarity-core/lib/rubikcube/helper.ts:45-64 | the net template is 9 rows of 12 cells and agrees, cell by cell, with the layout U on top, L F R B across the middle and D at the bottom |
| `Helper.NetPosition` | workspaces/cube-clarity-core/lib/rubikcube/helper.ts:45-64 | every facelet index 0..53 has a cell inside the 9 x 12 grid |
| `Helper.NetPositionPlaces` | workspaces/cube-clarity-core/lib/rubikcube/helper.ts:45-64 | the layout puts facelet `k` at its cell |
| `Helper.NetIndexAtPosition` | workspaces/cube-clarity-core/lib/rubikcube/helper.ts:45-64 | each occupied cell holds an index 0..53, and that index's cell is this one |
| `Helper.NetPlacesEachIndexOnce` | workspaces/cube-clarity-core/lib/rubikcube/helper.ts:45-64 | every index 0..53 is placed in the template, at exactly one cell |
| `Helper.RubikCubeNet` | workspaces/cube-clarity-core/lib/rubikcube/helper.ts:36-66 | the net is 9 rows of 12 cells, and every cell the template leaves blank stays blank |
| `Helper.NetShowsEachLabel` | workspaces/cube-clarity-core/lib/rubikcube/helper.ts:36-66 | each of the 54 labels appears, padded, at its own cell |
| `Helper.NetCellsAreTwoWide` | workspaces/cube-clarity-core/lib/rubikcube/helper.ts:37-43 | with labels of at most two characters every filled cell is exactly two wide |
| `MoveNotation.NotationTable` | workspaces/cube-clarity-front/src/lib/rubikcube/RubikCube.ts:71-89 | there are 18 moves and 18 tokens, in the same order, each move listed, and no token listed twice |
| `MoveNotation.Notation` | workspaces/cube-clarity-core/lib/rubikcube/MoveNotation.ts:5-24 | the token of each move; it has no contract of its own: `NotationTable` states that the 18 tokens are those of RUBIK_CUBE_MOVE_NOTATION, in order and pairwise distinct, and `FromNotationOfNotation` that each reads back as its move |
| `MoveNotation.NotationsAgree` | workspaces/cube-clarity-core/lib/rubikcube/MoveNotation.ts:5-24 | entry `i` of the token list is the token of entry `i` of the move list |
| `MoveNotation.NotationsDistinct` | workspaces/cube-clarity-core/lib/rubikcube/MoveNotation.ts:5-24 | no token appears at two positions of the list |
| `MoveNotation.MoveIndex` | workspaces/cube-clarity-core/lib/rubikcube/MoveNotation.ts:5-24 | each move has a position in the list of the 18 moves |
| `MoveNotation.IsMoveNotationListed` | workspaces/cube-clarity-core/lib/rubikcube/MoveNotation.ts:5-24 | a string is a move token exactly when RUBIK_CUBE_MOVE_NOTATION includes it |
| `MoveNotation.FromNotation` | workspaces/cube-clarity-core/lib/rubikcube/MoveNotation.ts:62 | a token read back as a move has that token as its notation |
| `MoveNotation.FromNotationOfNotation` | workspaces/cube-clarity-core/lib/rubikcube/MoveNotation.ts:62 | every move's token reads back as that move |
| `MoveNotation.FromNotationDefined` | workspaces/cube-clarity-core/lib/rubikcube/MoveNotation.ts:62 | exactly the 18 tokens read as moves |
| `MoveNotation.UpperChar` | workspaces/cube-clarity-core/lib/rubikcube/MoveNotation.ts:61 | `toUpperCase` on one character: a..z go to A..Z, everything else is kept |
| `MoveNotation.ToUpperCase` | workspaces/cube-clarity-core/lib/rubikcube/MoveNotation.ts:61 | upper-casing keeps the length and maps each character on its own |
| `MoveNotation.IndexOfSpace` | workspaces/cube-clarity-core/lib/rubikcube/MoveNotation.ts:57 | the first space in a string |
| `MoveNotation.Split` | workspaces/cube-clarity-core/lib/rubikcube/MoveNotation.ts:57 | `split(" ")` gives at least one piece, no piece holds a space |
| `MoveNotation.JoinSplit` | workspaces/cube-clarity-core/lib/rubikcube/MoveNotation.ts:57 | joining the pieces with single spaces gives the input back |
| `MoveNotation.SplitJoin` | workspaces/cube-clarity-core/lib/rubikcube/MoveNotation.ts:57 | splitting undoes joining any non-empty list of space-free pieces |
| `MoveNotation.SpaceAfterPiece` | workspaces/cube-clarity-core/lib/rubikcube/MoveNotation.ts:57 | the first space of `piece + " " + rest`, for a space-free piece, is the one right after the piece |
| `MoveNotation.JoinCons` | workspaces/cube-clarity-core/lib/rubikcube/MoveNotation.ts:57 | joining a piece in front of a non-empty list puts a single space between the piece and the joined rest |
| `MoveNotation.DoubleSpaceGivesEmptyPiece` | workspaces/cube-clarity-core/lib/rubikcube/MoveNotation.ts:57 | two neighbouring spaces make `split` produce an empty piece |
| `MoveNotation.ReadMoveNotation` | workspaces/cube-clarity-core/lib/rubikcube/MoveNotation.ts:60-67 | one piece is kept exactly when its upper-cased form is one of the 18 tokens, and then the kept move's token is that upper-cased piece |
| `MoveNotation.ParseMoveNotation` | workspaces/cube-clarity-core/lib/rubikcube/MoveNotation.ts:54-72 | succeeds exactly when every upper-cased piece is one of the 18 tokens; then one move per piece, in order, whose token is that piece upper-cased; otherwise the error carries the first bad piece as written and no partial list (the front copy at workspaces/cube-clarity-front/src/lib/rubikcube/RubikCube/MoveNotation.ts lines 53-77 is the same code) |
| `MoveNotation.EmptyPieceRejected` | workspaces/cube-clarity-core/lib/rubikcube/MoveNotation.ts:57-66 | `""` does not parse, nor does any input whose split holds an empty piece |
| `MoveNotation.DoubleSpaceRejected` | workspaces/cube-clarity-front/src/lib/rubikcube/RubikCube/MoveNotation.ts:56 | input with two neighbouring spaces does not parse |
| `MoveNotation.LowerCaseAccepted` | workspaces/cube-clarity-front/src/lib/rubikcube/RubikCube/MoveNotation.ts:60 | `"r2 u'"` splits into two pieces read as R2 and U', and parses |
| `MoveNotation.GetRotateNotationDetail` | workspaces/cube-clarity-core/lib/rubikcube/MoveNotation.ts:90-186 | the face is the token's letter; clockwise exactly when there is no suffix, counterclockwise exactly for `'`, diagonal exactly for `2` |
| `MoveNotation.MoveOf` | workspaces/cube-clarity-core/lib/rubikcube/MoveNotation.ts:90-186 | the move whose detail is the given face and direction |
| `MoveNotation.RotateNotationDetailBijective` | workspaces/cube-clarity-core/lib/rubikcube/MoveNotation.ts:90-186 | the detail determines the move, so getRotateNotationDetail is one to one onto face x direction |
| `MoveInvert.ReplaceFirst` | workspaces/cube-clarity-front/src/components/CubeGuide/moveInvert.ts:29 | `replace(ch, "")` with a one-character pattern: unchanged without `ch`, one character shorter with it |
| `MoveInvert.ReplaceFirstAt` | workspaces/cube-clarity-front/src/components/CubeGuide/moveInvert.ts:29 | only the first occurrence goes and everything around it stays |
| `MoveInvert.BareLetter` | workspaces/cube-clarity-front/src/components/CubeGuide/moveInvert.ts:11-25 | each bare face letter is in moveList, and priming it gives the counterclockwise token |
| `MoveInvert.NotBare` | workspaces/cube-clarity-front/src/components/CubeGuide/moveInvert.ts:11-20 | two-character tokens are not in moveList |
| `MoveInvert.Unprimed` | workspaces/cube-clarity-front/src/components/CubeGuide/moveInvert.ts:27-32 | `X'` contains a quote, and removing it gives `X` |
| `MoveInvert.Undoubled` | workspaces/cube-clarity-front/src/components/CubeGuide/moveInvert.ts:34-40 | `X2` has no quote but has a `2`, and dropping the `2` and priming gives `X'` |
| `MoveInvert.MoveInvert` | workspaces/cube-clarity-front/src/components/CubeGuide/moveInvert.ts:10-46 | the result has moves exactly when its progress is not 0; progress is 0, 0.7 or 0.8; at 0.7 there is one move and at 0.8 two equal moves; `MoveInvertCases` gives the moves for each token and `MoveInvertUndoes` shows they undo the move |
| `MoveInvert.MoveInvertCases` | workspaces/cube-clarity-front/src/components/CubeGuide/moveInvert.ts:10-41 | X gives `{[X'], 0.7}`, X' gives `{[X], 0.7}` and X2 gives `{[X', X'], 0.8}`, for every face |
| `MoveInvert.InvertMoves` | workspaces/cube-clarity-front/src/components/CubeGuide/moveInvert.ts:10-41 | the moves named by the tokens moveInvert returns: one per token, each of the 18 moves |
| `MoveInvert.MoveInvertNeverEmpty` | workspaces/cube-clarity-front/src/components/CubeGuide/moveInvert.ts:42-45 | for every valid move the fallback `{[], 0}` is never reached |
| `MoveInvert.MoveInvertUndoes` | workspaces/cube-clarity-front/src/components/CubeGuide/moveInvert.ts:7-10 | turning by a move and then by the moves moveInvert returns gives the cube back |
| `SolverSearch.InsertBy` | workspaces/cube-clarity-front/src/lib/rubikcube/RubikCube/RubikCubeSolver.ts:710 | inserting adds exactly that element: the multiset grows by it |
| `SolverSearch.SortBy` | workspaces/cube-clarity-front/src/lib/rubikcube/RubikCube/RubikCubeSolver.ts:710 | sorting keeps the length |
| `SolverSearch.InsertBySorted` | workspaces/cube-clarity-front/src/lib/rubikcube/RubikCube/RubikCubeSolver.ts:710 | inserting into a sorted list with a total order keeps it sorted |
| `SolverSearch.SortBySortedPermutation` | workspaces/cube-clarity-front/src/lib/rubikcube/RubikCube/RubikCubeSolver.ts:710 | the sort returns a sorted permutation of its input |
| `SolverSearch.Rank` | workspaces/cube-clarity-front/src/lib/rubikcube/RubikCube/RubikCubeSolver.ts:703-710 | `colorOrder[c] ?? 10`: only Y is unranked |
| `SolverSearch.NormalizeCornerColors` | workspaces/cube-clarity-front/src/lib/rubikcube/RubikCube/RubikCubeSolver.ts:702-712 | the normalised key has as many colours as the corner |
| `SolverSearch.NormalizeCornerColorsSorted` | workspaces/cube-clarity-front/src/lib/rubikcube/RubikCube/RubikCubeSolver.ts:702-712 | normalizeCornerColors returns a permutation of its input sorted by rank W < B < G < R < O, unranked Y last |
| `SolverSearch.NormalizeWhiteBlueRed` | workspaces/cube-clarity-front/src/lib/rubikcube/RubikCube/RubikCubeSolver.ts:702-712 | a corner holding W, B and R in any order normalises to the key `WBR` |
| `SolverSearch.StringLeTotal` | workspaces/cube-clarity-front/src/lib/rubikcube/RubikCube/RubikCubeSolver.ts:1010 | the default order of `sort()` compares any two strings |
| `SolverSearch.SortStringsSortedPermutation` | workspaces/cube-clarity-front/src/lib/rubikcube/RubikCube/RubikCubeSolver.ts:1010 | `sort()` on strings returns a sorted permutation |
| `SolverSearch.WhiteCornersIn` | workspaces/cube-clarity-front/src/lib/rubikcube/RubikCube/RubikCubeSolver.ts:604-619 | at most one report per scanned corner |
| `SolverSearch.FindWhiteCorners` | workspaces/cube-clarity-front/src/lib/rubikcube/RubikCube/RubikCubeSolver.ts:548-620 | the loop returns the corners of DRF, DLF, DRB, DLB that show white, in that order |
| `SolverSearch.WhiteCornersExact` | workspaces/cube-clarity-front/src/lib/rubikcube/RubikCube/RubikCubeSolver.ts:604-619 | a corner is reported exactly when it is scanned and one of its three facelets is white, with those three colours |
| `SolverSearch.CornerRank` | workspaces/cube-clarity-front/src/lib/rubikcube/RubikCube/RubikCubeSolver.ts:553-603 | a corner's position in the scan order DRF, DLF, DRB, DLB |
| `SolverSearch.WhiteCornersInOrder` | workspaces/cube-clarity-front/src/lib/rubikcube/RubikCube/RubikCubeSolver.ts:604-619 | reports come in scan order, so no corner is reported twice |
| `SolverSearch.NoneYellowEdgesIn` | workspaces/cube-clarity-front/src/lib/rubikcube/RubikCube/RubikCubeSolver.ts:793-801 | at most one report per scanned edge |
| `SolverSearch.FindEdges` | workspaces/cube-clarity-front/src/lib/rubikcube/RubikCube/RubikCubeSolver.ts:783-802 | the loop returns the edges of DF, DR, DL, DB that show no yellow, in that order |
| `SolverSearch.NoneYellowEdgesExact` | workspaces/cube-clarity-front/src/lib/rubikcube/RubikCube/RubikCubeSolver.ts:793-801 | an edge is reported exactly when it is scanned and neither facelet is yellow, with its two colours |
| `SolverSearch.EdgeRank` | workspaces/cube-clarity-front/src/lib/rubikcube/RubikCube/RubikCubeSolver.ts:786-792 | an edge's position in the scan order DF, DR, DL, DB |
| `SolverSearch.NoneYellowEdgesInOrder` | workspaces/cube-clarity-front/src/lib/rubikcube/RubikCube/RubikCubeSolver.ts:793-801 | reports come in scan order, so no edge is reported twice |
| `SolverSearch.FirstFix` | workspaces/cube-clarity-front/src/lib/rubikcube/RubikCube/RubikCubeSolver.ts:651-663 | the loop returns the moves of the first entry whose condition holds, or none |
| `SolverSearch.FirstFixOf` | workspaces/cube-clarity-front/src/lib/rubikcube/RubikCube/RubikCubeSolver.ts:651-663 | the moves are none, or the moves of an entry whose condition holds |
| `SolverSearch.FirstFixExact` | workspaces/cube-clarity-front/src/lib/rubikcube/RubikCube/RubikCubeSolver.ts:651-663 | the first entry that fires decides the moves; with none firing there are none |
| `SolverSearch.FirstFixEmpty` | workspaces/cube-clarity-front/src/lib/rubikcube/RubikCube/RubikCubeSolver.ts:833-843 | with every entry carrying moves, no moves come out exactly when no entry fires |
| `SolverSearch.FixUpperLayer` | workspaces/cube-clarity-front/src/lib/rubikcube/RubikCube/RubikCubeSolver.ts:622-664 | no moves exactly when all four top corners are white on top and F, L, R, B show their own colour at `[0][2]`; otherwise the first entry's moves |
| `SolverSearch.FixFlippedEdge` | workspaces/cube-clarity-front/src/lib/rubikcube/RubikCube/RubikCubeSolver.ts:804-844 | no moves exactly when all eight middle-edge facelets show their own face's colour; otherwise the first flipped edge's moves |
| `SolverSearch.FindGreenEdgeAndSides` | workspaces/cube-clarity-front/src/lib/rubikcube/RubikCube/RubikCubeSolver.ts:1033-1067 | the loop returns the first of DF, DR, DL, DB whose side facelet is green, with its neighbours' colours, or none |
| `SolverSearch.FirstGreenEdge` | workspaces/cube-clarity-front/src/lib/rubikcube/RubikCube/RubikCubeSolver.ts:1052-1066 | a reported edge is one of the listed positions, carrying the colours at `[2][1]` of its left and right neighbour faces |
| `SolverSearch.FirstGreenEdgeNone` | workspaces/cube-clarity-front/src/lib/rubikcube/RubikCube/RubikCubeSolver.ts:1052-1066 | there is no green edge exactly when no side facelet of the down edges is green |
| `SolverSearch.FirstGreenEdgeFound` | workspaces/cube-clarity-front/src/lib/rubikcube/RubikCube/RubikCubeSolver.ts:1052-1065 | a reported edge shows green, carries its left and right neighbours' colours, and no entry before it shows green |
| `SolverSearch.FindCorrectYellowCornerPosition` | workspaces/cube-clarity-front/src/lib/rubikcube/RubikCube/RubikCubeSolver.ts:1132-1211 | the loop returns the first of DRF, DLF, DRB, DLB that holds its colour set, or none for the empty string |
| `SolverSearch.FirstCorrectCorner` | workspaces/cube-clarity-front/src/lib/rubikcube/RubikCube/RubikCubeSolver.ts:1191-1210 | a reported corner is one of the listed positions, and no position before it holds its colours |
| `SolverSearch.FirstCorrectCornerExact` | workspaces/cube-clarity-front/src/lib/rubikcube/RubikCube/RubikCubeSolver.ts:1191-1210 | none is reported exactly when no corner holds its colours; a reported corner holds them and none before it does |
| `SolverSearch.CheckCorrectColor` | workspaces/cube-clarity-front/src/lib/rubikcube/RubikCube/RubikCubeSolver.ts:1213-1239 | true exactly when some colour of `correctDRFColors[position]` is missing from the DRF corner; the empty position has no entry and is an error |
| `SolverSearch.CorrectCount` | workspaces/cube-clarity-front/src/lib/rubikcube/RubikCube/RubikCubeSolver.ts:1302-1320 | the count is at most the number of corners |
| `SolverSearch.CorrectCountFull` | workspaces/cube-clarity-front/src/lib/rubikcube/RubikCube/RubikCubeSolver.ts:1302-1325 | the count is full exactly when every corner holds its colours |
| `SolverSearch.CheckCorrectCornerColors` | workspaces/cube-clarity-front/src/lib/rubikcube/RubikCube/RubikCubeSolver.ts:1241-1326 | true exactly when all four down corners hold their colour sets |
| `SolverSearch.SolvedLastLayer` | workspaces/cube-clarity-front/src/lib/rubikcube/RubikCube/RubikCubeSolver.ts:1388-1395 | true exactly when the down facelet of each of the four down corners is yellow |
| `SolverTables.Pick` | workspaces/cube-clarity-front/src/lib/rubikcube/RubikCube/RubikCubeSolver.ts:129-147 | an adjustment is chosen exactly when its group fires, and it turns the given face |
| `SolverTables.Adjustment` | workspaces/cube-clarity-front/src/lib/rubikcube/RubikCube/RubikCubeSolver.ts:123-177 | `null` unless one of the two condition groups fires; the first group is tried first |
| `SolverTables.UAdjustmentForFandB` | workspaces/cube-clarity-front/src/lib/rubikcube/RubikCube/RubikCubeSolver.ts:120-178 | a returned move turns U, and only when U[1][2] or U[1][0] is white |
| `SolverTables.DAdjustmentForFandB` | workspaces/cube-clarity-front/src/lib/rubikcube/RubikCube/RubikCubeSolver.ts:180-238 | a returned move turns D, and only when D[1][2] or D[1][0] is white |
| `SolverTables.UAdjustmentForRandL` | workspaces/cube-clarity-front/src/lib/rubikcube/RubikCube/RubikCubeSolver.ts:240-298 | a returned move turns U, and only when U[2][1] or U[0][1] is white |
| `SolverTables.DAdjustmentForRandL` | workspaces/cube-clarity-front/src/lib/rubikcube/RubikCube/RubikCubeSolver.ts:300-358 | a returned move turns D, and only when D[0][1] or D[2][1] is white |
| `SolverTables.AdjacentFace` | workspaces/cube-clarity-front/src/lib/rubikcube/RubikCube/RubikCubeSolver.ts:112-118 | the four keys of `edgeMoves` map to F, R, B and L |
| `SolverTables.EdgeMoves` | workspaces/cube-clarity-front/src/lib/rubikcube/RubikCube/RubikCubeSolver.ts:467-492 | an entry exists only for the side colours G, R, O and B |
| `SolverTables.CornerColors` | workspaces/cube-clarity-front/src/lib/rubikcube/RubikCube/RubikCubeSolver.ts:608-612 | a corner shows three colours |
| `SolverTables.CornerKeyOf` | workspaces/cube-clarity-front/src/lib/rubikcube/RubikCube/RubikCubeSolver.ts:744-751 | the key `WBR`, `WBO`, `WGO` or `WGR` is matched exactly by that normalised colour string |
| `SolverTables.CornerPositionMove` | workspaces/cube-clarity-front/src/lib/rubikcube/RubikCube/RubikCubeSolver.ts:671-677 | every entry of `correctCornerPositions` is a D turn |
| `SolverTables.CornerInsertSlot` | workspaces/cube-clarity-front/src/lib/rubikcube/RubikCube/RubikCubeSolver.ts:744-750 | the facelet read to choose the insertion is a `[2][2]` one |
| `SolverTables.InsertCorner` | workspaces/cube-clarity-front/src/lib/rubikcube/RubikCube/RubikCubeSolver.ts:678-700 | every entry of `insertCorner` plays at least one move |
| `SolverTables.UpperLayerCorners` | workspaces/cube-clarity-front/src/lib/rubikcube/RubikCube/RubikCubeSolver.ts:625-650 | fixUpperLayer has four entries, URF, ULF, URB, ULB |
| `SolverTables.EdgeColors` | workspaces/cube-clarity-front/src/lib/rubikcube/RubikCube/RubikCubeSolver.ts:794 | an edge shows two colours |
| `SolverTables.EdgeKeyOf` | workspaces/cube-clarity-front/src/lib/rubikcube/RubikCube/RubikCubeSolver.ts:851-893 | a matched key names two different colours, neither white nor yellow |
| `SolverTables.EdgePositionMove` | workspaces/cube-clarity-front/src/lib/rubikcube/RubikCube/RubikCubeSolver.ts:851-893 | every entry of `correctEdgePositions` is a D turn |
| `SolverTables.EdgeInsertSlot` | workspaces/cube-clarity-front/src/lib/rubikcube/RubikCube/RubikCubeSolver.ts:942-952 | the facelet read to choose the insertion is one of the four down edges |
| `SolverTables.InsertEdge` | workspaces/cube-clarity-front/src/lib/rubikcube/RubikCube/RubikCubeSolver.ts:894-911 | every entry of `insertEdge` plays eight moves |
| `SolverTables.UnOrientedEdges` | workspaces/cube-clarity-front/src/lib/rubikcube/RubikCube/RubikCubeSolver.ts:807-832 | fixFlippedEdge has four entries, FR, FL, BR, BL |
| `SolverTables.EdgeNameString` | workspaces/cube-clarity-front/src/lib/rubikcube/RubikCube/RubikCubeSolver.ts:990-999 | each position name is two characters, starting with D and holding no space |
| `SolverTables.YellowEdgeSolution` | workspaces/cube-clarity-front/src/lib/rubikcube/RubikCube/RubikCubeSolver.ts:1013-1022 | solutions exist only for the empty key and for keys of two names |
| `SolverTables.AdjustmentMoves` | workspaces/cube-clarity-front/src/lib/rubikcube/RubikCube/RubikCubeSolver.ts:1084-1121 | an entry exists only for two different colours among O, R and B |
| `SolverTables.CorrectCorners` | workspaces/cube-clarity-front/src/lib/rubikcube/RubikCube/RubikCubeSolver.ts:1133-1139 | each corner's colour set has three colours, yellow last |
| `SolverTables.CorrectDRFColors` | workspaces/cube-clarity-front/src/lib/rubikcube/RubikCube/RubikCubeSolver.ts:1217-1222 | each position's DRF colour set has three colours, yellow last |
| `SolverTables.PositionAdjustment` | workspaces/cube-clarity-front/src/lib/rubikcube/RubikCube/RubikCubeSolver.ts:1333-1337 | no adjustment exactly for DLF |
| `SolverTables.FinalAdjustment` | workspaces/cube-clarity-front/src/lib/rubikcube/RubikCube/RubikCubeSolver.ts:1342-1346 | no adjustment exactly for DLF |
| `SolverTables.LastAdjustment` | workspaces/cube-clarity-front/src/lib/rubikcube/RubikCube/RubikCubeSolver.ts:1411-1415 | an adjustment exactly for the colours R, O and B |
| `Solver.Played` | workspaces/cube-clarity-front/src/lib/rubikcube/RubikCube/RubikCubeSolver.ts:373-383 | playing `done` and then more moves is playing them all in order |
| `Solver.PlayedOne` | workspaces/cube-clarity-front/src/lib/rubikcube/RubikCube/RubikCubeSolver.ts:373-383 | one rotateCubeOnce after `done` is rotateCube of `done` with that move appended |
| `Solver.UAdjustment` | workspaces/cube-clarity-front/src/lib/rubikcube/RubikCube/RubikCubeSolver.ts:370 | the U helper of an edge table turns U |
| `Solver.DAdjustment` | workspaces/cube-clarity-front/src/lib/rubikcube/RubikCube/RubikCubeSolver.ts:371 | the D helper of an edge table turns D |
| `Solver.ThenThen` | workspaces/cube-clarity-front/src/lib/rubikcube/RubikCube/RubikCubeSolver.ts:373-383 | prefixing moves to a result twice is prefixing their concatenation |
| `Solver.ThenNothing` | workspaces/cube-clarity-front/src/lib/rubikcube/RubikCube/RubikCubeSolver.ts:373-383 | prefixing no moves leaves a result unchanged |
| `Solver.BindThen` | workspaces/cube-clarity-front/src/lib/rubikcube/RubikCube/RubikCubeSolver.ts:360-541 | running later loops after a result that starts with `ms` is `ms` followed by running them from the cube `ms` reaches |
| `Solver.RunAppend` | workspaces/cube-clarity-front/src/lib/rubikcube/RubikCube/RubikCubeSolver.ts:360-541 | running two lists of loops one after the other is running the first and continuing with the second from where it ended, stopping at the first error |
| `Solver.BindAppend` | workspaces/cube-clarity-front/src/lib/rubikcube/RubikCube/RubikCubeSolver.ts:360-541 | continuing a result with `a + b` is continuing with `a` and then with `b` |
| `Solver.PhaseStart` | workspaces/cube-clarity-front/src/lib/rubikcube/RubikCube/RubikCubeSolver.ts:360-541 | running a list that starts with one loop is that loop's moves followed by the rest from where it ended |
| `Solver.BindNothing` | workspaces/cube-clarity-front/src/lib/rubikcube/RubikCube/RubikCubeSolver.ts:360-541 | continuing a result of no moves is running the rest from the same cube |
| `Solver.SlotStops` | workspaces/cube-clarity-front/src/lib/rubikcube/RubikCube/RubikCubeSolver.ts:369-384 | when the `while` for a slot finishes within its fuel, the slot no longer shows white on the cube it reaches |
| `Solver.DownEdgeStops` | workspaces/cube-clarity-front/src/lib/rubikcube/RubikCube/RubikCubeSolver.ts:502-515 | when the `while` for a down edge finishes within its fuel, the edge no longer shows white, or the colour next to it has no `edgeMoves` entry (the `break`) |
| `Solver.SidesStep` | workspaces/cube-clarity-front/src/lib/rubikcube/RubikCube/RubikCubeSolver.ts:360-465 | the loops of the side tables from table `t` are table `t`'s slot loops followed by those of the later tables |
| `Solver.Regroup` | workspaces/cube-clarity-front/src/lib/rubikcube/RubikCube/RubikCubeSolver.ts:360-541 | loop lists may be regrouped |
| `Solver.SlotsIdle` | workspaces/cube-clarity-front/src/lib/rubikcube/RubikCube/RubikCubeSolver.ts:368-385 | a table none of whose slots shows white plays nothing |
| `Solver.DownEdgesIdle` | workspaces/cube-clarity-front/src/lib/rubikcube/RubikCube/RubikCubeSolver.ts:495-516 | down edges none of which shows white play nothing |
| `Solver.SidesIdle` | workspaces/cube-clarity-front/src/lib/rubikcube/RubikCube/RubikCubeSolver.ts:360-465 | side tables none of whose slots shows white play nothing |
| `Solver.DownPassIdle` | workspaces/cube-clarity-front/src/lib/rubikcube/RubikCube/RubikCubeSolver.ts:494-541 | with no white down edge and every side face's top edge in place, a pass of the down edges and the top edges plays nothing |
| `Solver.WhiteCrossIdle` | workspaces/cube-clarity-front/src/lib/rubikcube/RubikCube/RubikCubeSolver.ts:99-545 | on a cube where solveWhiteCross finds nothing to do it plays no moves |
| `Solver.TwiceTwiceIdle` | workspaces/cube-clarity-front/src/lib/rubikcube/RubikCube/RubikCubeSolver.ts:360-541 | when one pass of the side loops and one pass of the down loops play nothing, running each twice plays nothing |
| `Solver.RunNext` | workspaces/cube-clarity-front/src/lib/rubikcube/RubikCube/RubikCubeSolver.ts:360-541 | an error in the first loops is an error of the whole run; otherwise the run is their moves followed by the rest from where they ended |
| `Solver.PhaseNext` | workspaces/cube-clarity-front/src/lib/rubikcube/RubikCube/RubikCubeSolver.ts:360-541 | the same for one loop at the head of the list |
| `Solver.SlotNoFuel` | workspaces/cube-clarity-front/src/lib/rubikcube/RubikCube/RubikCubeSolver.ts:369 | a `while` that still sees white with no fuel left reports running out of fuel |
| `Solver.SlotDone` | workspaces/cube-clarity-front/src/lib/rubikcube/RubikCube/RubikCubeSolver.ts:369 | a `while` whose slot does not show white plays nothing |
| `Solver.PlaySlotRound` | workspaces/cube-clarity-front/src/lib/rubikcube/RubikCube/RubikCubeSolver.ts:370-383 | one round of the `while`: the U and D adjustments, then the entry's moves, each pushed with the same rotation; the rest of the loop runs from the cube reached with one less fuel |
| `Solver.PlaySlotLoop` | workspaces/cube-clarity-front/src/lib/rubikcube/RubikCube/RubikCubeSolver.ts:369-384 | the `while` for one slot succeeds exactly when the slot's specification does, returns its moves, and reaches the input with those moves applied |
| `Solver.PlaySlot` | workspaces/cube-clarity-front/src/lib/rubikcube/RubikCube/RubikCubeSolver.ts:369-384 | the `while` for one slot plays exactly `SlotMoves`, the adjustments and entry moves round after round until the slot shows no white, and reaches the input with them applied |
| `Solver.PlayWhiteEdges` | workspaces/cube-clarity-front/src/lib/rubikcube/RubikCube/RubikCubeSolver.ts:368-385 | the `for` loop over one side table plays exactly the slot loops of its entries in order, stopping at the first that runs out of fuel; the cube reached is the input with the moves applied; a table with no white slot plays nothing |
| `Solver.PlayDownEdge` | workspaces/cube-clarity-front/src/lib/rubikcube/RubikCube/RubikCubeSolver.ts:502-515 | the `while` for one down edge plays exactly `DownEdgeMoves`: the `edgeMoves` sequence for the colour beside it, round after round, until it shows no white or the colour has no entry |
| `Solver.PlayEdgeMoves` | workspaces/cube-clarity-front/src/lib/rubikcube/RubikCube/RubikCubeSolver.ts:494-516 | the `for` loop over the four down edges plays exactly their `while` loops in order; the cube reached is the input with the moves applied; with no white down edge nothing is played |
| `Solver.FirstWrongTopEdge` | workspaces/cube-clarity-front/src/lib/rubikcube/RubikCube/RubikCubeSolver.ts:517-518 | a face is found exactly when some side face's top edge is not its colour, and the found face is one of them |
| `Solver.FixTopEdge` | workspaces/cube-clarity-front/src/lib/rubikcube/RubikCube/RubikCubeSolver.ts:517-541 | plays the half turn of the first side face, in the order F, R, B, L, whose top edge is wrong, or nothing; the cube reached is the input with the moves applied |
| `Solver.Chain` | workspaces/cube-clarity-front/src/lib/rubikcube/RubikCube/RubikCubeSolver.ts:373-383 | chaining two sub-steps keeps the pairing with the stage's input |
| `Solver.PlaySideTables` | workspaces/cube-clarity-front/src/lib/rubikcube/RubikCube/RubikCubeSolver.ts:360-465 | one pass over the four side tables plays exactly their loops, in order, after the moves already played; an error of those loops is an error of the stage |
| `Solver.PlayDownPass` | workspaces/cube-clarity-front/src/lib/rubikcube/RubikCube/RubikCubeSolver.ts:494-541 | one pass of the down edges and the top-edge fix plays exactly those loops after the moves already played |
| `Solver.PlaySidesTwice` | workspaces/cube-clarity-front/src/lib/rubikcube/RubikCube/RubikCubeSolver.ts:360-465 | the `repeat < 2` loop over the side tables plays the side loops twice, in order |
| `Solver.PlayDownTwice` | workspaces/cube-clarity-front/src/lib/rubikcube/RubikCube/RubikCubeSolver.ts:494-541 | the `repeat < 2` loop over the down edges and top edges plays that pass twice, and then nothing is left of the stage |
| `Solver.PlayWhiteCross` | workspaces/cube-clarity-front/src/lib/rubikcube/RubikCube/RubikCubeSolver.ts:360-541 | the stage's four loops play exactly the side tables twice and then the down pass twice, with the moves of each loop and error exactly when one runs out of fuel |
| `Solver.SolveWhiteCross` | workspaces/cube-clarity-front/src/lib/rubikcube/RubikCube/RubikCubeSolver.ts:99-545 | returns exactly `WhiteCrossMoves`: the side tables F, R, B, L twice, then the down edges and the top-edge fix twice, every `while` going round until its slot shows no white (`Err(OutOfFuel)` exactly when one needs more than `fuel` rounds); the cube returned is the input with those moves applied; with nothing to fix it returns the input and no moves |
| `Solver.RepeatSettles` | workspaces/cube-clarity-front/src/lib/rubikcube/RubikCube/RubikCubeSolver.ts:714-777 | when a `while (true)` over a pass finishes within its fuel, the pass plays nothing on the cube it reaches (the `!adjusted` exit) |
| `Solver.RepeatStep` | workspaces/cube-clarity-front/src/lib/rubikcube/RubikCube/RubikCubeSolver.ts:714-777 | one round of the `while (true)`: a pass with no moves ends the loop with the moves so far; otherwise its moves are appended and the loop goes on from the cube reached |
| `Solver.FirstNonEmpty` | workspaces/cube-clarity-front/src/lib/rubikcube/RubikCube/RubikCubeSolver.ts:727-776 | the `for ... break` over found items: no moves exactly when every item plays none; otherwise the moves of an item that plays some, with every item before it playing none |
| `Solver.FirstPlacement` | workspaces/cube-clarity-front/src/lib/rubikcube/RubikCube/RubikCubeSolver.ts:727-776 | the first white corner that plays any moves decides the pass; none plays when no corner has moves |
| `Solver.WhiteLayerPassEmpty` | workspaces/cube-clarity-front/src/lib/rubikcube/RubikCube/RubikCubeSolver.ts:714-777 | a pass of solveWhiteLayer plays nothing exactly in the state the loop stops in: with no white corner below, fixUpperLayer has nothing to do, and no found corner has moves |
| `Solver.WhiteLayerIdle` | workspaces/cube-clarity-front/src/lib/rubikcube/RubikCube/RubikCubeSolver.ts:714-777 | with no white corner below and a finished top layer the loop plays nothing |
| `Solver.WhiteLayerFacts` | workspaces/cube-clarity-front/src/lib/rubikcube/RubikCube/RubikCubeSolver.ts:714-777 | the loop stops in the settled state, and plays nothing on a finished or solved cube |
| `Solver.PlaceCorner` | workspaces/cube-clarity-front/src/lib/rubikcube/RubikCube/RubikCubeSolver.ts:727-775 | the moves of one corner are exactly `PlaceCornerMoves`: the correctCornerPositions D turn for its normalised colours, if any, then the insertCorner entry for the colour now at the slot; the cube reached is the input with the moves applied |
| `Solver.PlayWhiteLayerPass` | workspaces/cube-clarity-front/src/lib/rubikcube/RubikCube/RubikCubeSolver.ts:715-775 | one pass of the `while (true)`: with no white corner below, fixUpperLayer's moves; otherwise the first corner's moves that are not empty; `adjusted` is set exactly when moves were played |
| `Solver.PlaceCornerBy` | workspaces/cube-clarity-front/src/lib/rubikcube/RubikCube/RubikCubeSolver.ts:727-775 | placing one corner, seen through the pass's own placement function |
| `Solver.PlaceFirstCorner` | workspaces/cube-clarity-front/src/lib/rubikcube/RubikCube/RubikCubeSolver.ts:727-776 | the `for` loop over the white corners found plays exactly the first non-empty placement and `adjusted` says whether it played |
| `Solver.WhiteLayerRound` | workspaces/cube-clarity-front/src/lib/rubikcube/RubikCube/RubikCubeSolver.ts:714-777 | one round of the loop: without adjustment the stage ends with the moves so far; otherwise the rest of the loop runs from the cube reached with one less fuel |
| `Solver.PlayWhiteLayer` | workspaces/cube-clarity-front/src/lib/rubikcube/RubikCube/RubikCubeSolver.ts:714-777 | the `while (true)` plays exactly `Repeat` of the pass, with the cube reached the input with those moves applied |
| `Solver.SolveWhiteLayer` | workspaces/cube-clarity-front/src/lib/rubikcube/RubikCube/RubikCubeSolver.ts:666-780 | returns exactly the passes of `WhiteLayerPass` repeated until one plays nothing (`Err(OutOfFuel)` exactly when `fuel` passes do not reach one); the cube returned is the input with those moves applied and is settled: a further pass plays nothing; with no white corner below and a finished top layer, or on the solved cube, it returns the input and no moves |
| `Solver.FirstInsertion` | workspaces/cube-clarity-front/src/lib/rubikcube/RubikCube/RubikCubeSolver.ts:926-977 | the first edge without yellow that plays any moves decides the pass; none plays when no edge has moves |
| `Solver.SecondLayerPassEmpty` | workspaces/cube-clarity-front/src/lib/rubikcube/RubikCube/RubikCubeSolver.ts:913-979 | a pass of solveSecondLayer plays nothing exactly in the state the loop stops in: with every down edge yellow, fixFlippedEdge has nothing to do, and no found edge has moves |
| `Solver.SecondLayerIdle` | workspaces/cube-clarity-front/src/lib/rubikcube/RubikCube/RubikCubeSolver.ts:913-979 | with every down edge yellow and no flipped edge the loop plays nothing |
| `Solver.SecondLayerFacts` | workspaces/cube-clarity-front/src/lib/rubikcube/RubikCube/RubikCubeSolver.ts:913-979 | the loop stops in the settled state, and plays nothing on a finished or solved cube |
| `Solver.PlaceEdge` | workspaces/cube-clarity-front/src/lib/rubikcube/RubikCube/RubikCubeSolver.ts:926-977 | the moves of one edge are exactly `PlaceEdgeMoves`: the correctEdgePositions D turn for its colours, if any, then the insertEdge entry for the colour now at the slot; the cube reached is the input with the moves applied |
| `Solver.PlaySecondLayerPass` | workspaces/cube-clarity-front/src/lib/rubikcube/RubikCube/RubikCubeSolver.ts:914-977 | one pass of the `while (true)`: with no edge free of yellow, fixFlippedEdge's moves; otherwise the first edge's moves that are not empty; `adjusted` is set exactly when moves were played |
| `Solver.PlaceEdgeBy` | workspaces/cube-clarity-front/src/lib/rubikcube/RubikCube/RubikCubeSolver.ts:926-977 | placing one edge, seen through the pass's own placement function |
| `Solver.PlaceFirstEdge` | workspaces/cube-clarity-front/src/lib/rubikcube/RubikCube/RubikCubeSolver.ts:926-978 | the `for` loop over the edges found plays exactly the first non-empty placement and `adjusted` says whether it played |
| `Solver.SecondLayerRound` | workspaces/cube-clarity-front/src/lib/rubikcube/RubikCube/RubikCubeSolver.ts:913-979 | one round of the loop: without adjustment the stage ends with the moves so far; otherwise the rest runs from the cube reached with one less fuel |
| `Solver.PlaySecondLayer` | workspaces/cube-clarity-front/src/lib/rubikcube/RubikCube/RubikCubeSolver.ts:913-979 | the `while (true)` plays exactly `Repeat` of the pass, with the cube reached the input with those moves applied |
| `Solver.SolveSecondLayer` | workspaces/cube-clarity-front/src/lib/rubikcube/RubikCube/RubikCubeSolver.ts:846-982 | returns exactly the passes of `SecondLayerPass` repeated until one plays nothing (`Err(OutOfFuel)` exactly when `fuel` passes do not reach one); the cube returned is the input with those moves applied and is settled: a further pass plays nothing; with every down edge yellow and no flipped edge, or on the solved cube, it returns the input and no moves |
| `Solver.NotYellowSides` | workspaces/cube-clarity-front/src/lib/rubikcube/RubikCube/RubikCubeSolver.ts:1000-1009 | at most one name per position, each two characters without a space |
| `Solver.YellowCrossMoves` | workspaces/cube-clarity-front/src/lib/rubikcube/RubikCube/RubikCubeSolver.ts:1000-1027 | moves are played exactly when the sorted, joined key of non-yellow sides has an entry in the solutions table, and then there are no or two non-yellow sides |
| `Solver.SolveYellowCross` | workspaces/cube-clarity-front/src/lib/rubikcube/RubikCube/RubikCubeSolver.ts:985-1030 | plays exactly the solution for the sorted, joined key of non-yellow sides, or nothing; the cube reached is the input with those moves applied |
| `Solver.JoinLength` | workspaces/cube-clarity-front/src/lib/rubikcube/RubikCube/RubikCubeSolver.ts:1010 | joining `n` two-character names with spaces gives `3n - 1` characters |
| `Solver.YellowEdgeKeySorted` | workspaces/cube-clarity-front/src/lib/rubikcube/RubikCube/RubikCubeSolver.ts:1010 | the key's pieces are the non-yellow side names in sorted order |
| `Solver.YellowEdgeKeyLength` | workspaces/cube-clarity-front/src/lib/rubikcube/RubikCube/RubikCubeSolver.ts:1010 | the key of `n` non-yellow sides is `3n - 1` characters long, or empty, so one, three or four sides never match a two-name key |
| `Solver.CrossColorMoves` | workspaces/cube-clarity-front/src/lib/rubikcube/RubikCube/RubikCubeSolver.ts:1069-1128 | no green side facelet below means no moves; moves are played only for two different neighbour colours among O, R and B |
| `Solver.SolveCrossColor` | workspaces/cube-clarity-front/src/lib/rubikcube/RubikCube/RubikCubeSolver.ts:1069-1129 | plays exactly the moves the green edge's neighbours ask for; with no green side facelet below it plays nothing; the cube reached is the input with the moves applied |
| `Solver.Moves` | workspaces/cube-clarity-front/src/lib/rubikcube/RubikCube/RubikCubeSolver.ts:1361-1381 | an optional move is at most one move |
| `Solver.AdjustmentsCancel` | workspaces/cube-clarity-front/src/lib/rubikcube/RubikCube/RubikCubeSolver.ts:1333-1346 | for every corner the final adjustment undoes the position adjustment |
| `Solver.CorrectCornerMoves` | workspaces/cube-clarity-front/src/lib/rubikcube/RubikCube/RubikCubeSolver.ts:1361-1381 | the algorithm is bracketed once or twice, and twice exactly when checkCorrectColor after the first run is true |
| `Solver.CornerPre` | workspaces/cube-clarity-front/src/lib/rubikcube/RubikCube/RubikCubeSolver.ts:1348-1359 | the first algorithm is played exactly when findCorrectYellowCornerPosition finds no corner, and then it is mainAlgorithm |
| `Solver.YellowCornerMoves` | workspaces/cube-clarity-front/src/lib/rubikcube/RubikCube/RubikCubeSolver.ts:1328-1385 | nothing when all corners are correct; an error, the one checkCorrectColor throws for the empty position, exactly when no corner is correct before or after the first algorithm; otherwise the first algorithm when needed, then the bracketed algorithm, repeated exactly when checkCorrectColor says so |
| `Solver.SolveYellowCorners` | workspaces/cube-clarity-front/src/lib/rubikcube/RubikCube/RubikCubeSolver.ts:1328-1385 | returns exactly `YellowCornerMoves`: nothing when all corners hold their colours; otherwise the algorithm first exactly when no corner holds its colours, then the algorithm between the D turns that bring the first correct corner to DLF and back, played a second time exactly when checkCorrectColor is true after the first; an error exactly when no corner holds its colours even after the first algorithm, where the source throws; the cube returned is the input with the moves applied |
| `Solver.PlaceCorrectCorner` | workspaces/cube-clarity-front/src/lib/rubikcube/RubikCube/RubikCubeSolver.ts:1361-1381 | the moves are exactly `CorrectCornerMoves`: the algorithm between the position adjustment and the final adjustment, played twice exactly when checkCorrectColor after the first run is true; the cube reached is the input with them applied |
| `Solver.RepeatMoves` | workspaces/cube-clarity-front/src/lib/rubikcube/RubikCube/RubikCubeSolver.ts:1418-1421 | `k` runs of a sequence are `k` times as long |
| `Solver.LastLayerAdjustment` | workspaces/cube-clarity-front/src/lib/rubikcube/RubikCube/RubikCubeSolver.ts:1426-1435 | at most one closing move, and one only when the last layer is done and F[2][1] is R, O or B |
| `Solver.RunsUntilYellowLeast` | workspaces/cube-clarity-front/src/lib/rubikcube/RubikCube/RubikCubeSolver.ts:1418-1421 | no smaller number of runs than the one a pass makes turns D[0][2] yellow |
| `Solver.RunsUntilYellowUnique` | workspaces/cube-clarity-front/src/lib/rubikcube/RubikCube/RubikCubeSolver.ts:1418-1421 | the number of runs in a pass is determined by the cube it starts from |
| `Solver.PassesUnique` | workspaces/cube-clarity-front/src/lib/rubikcube/RubikCube/RubikCubeSolver.ts:1417-1424 | so the four passes, and with them stage 7's moves, are determined by the cube |
| `Solver.DownTurnKeepsYellowDown` | workspaces/cube-clarity-front/src/lib/rubikcube/RubikCube/RubikCubeSolver.ts:1422-1423 | a D' turn keeps a yellow down face yellow |
| `Solver.RunUntilYellow` | workspaces/cube-clarity-front/src/lib/rubikcube/RubikCube/RubikCubeSolver.ts:1418-1421 | plays lastAlgorithm the fewest times that make D[0][2] yellow, a count no larger than `fuel`; nothing when it already is; the cube reached is the input with the moves applied; `Err(OutOfFuel)` exactly when no count from 0 to `fuel` makes D[0][2] yellow |
| `Solver.NeverYellowBelowStep` | workspaces/cube-clarity-front/src/lib/rubikcube/RubikCube/RubikCubeSolver.ts:1418-1421 | a count that does not make D[0][2] yellow extends the range of counts that do not |
| `Solver.NeverYellowUpTo` | workspaces/cube-clarity-front/src/lib/rubikcube/RubikCube/RubikCubeSolver.ts:1418-1421 | when the fuel runs out at count `k`, no count from 0 to `k` makes D[0][2] yellow |
| `Solver.YellowWithinFuel` | workspaces/cube-clarity-front/src/lib/rubikcube/RubikCube/RubikCubeSolver.ts:1418-1421 | a count within the fuel that makes D[0][2] yellow means the fuel does not run out |
| `Solver.NextPass` | workspaces/cube-clarity-front/src/lib/rubikcube/RubikCube/RubikCubeSolver.ts:1417-1424 | one more pass extends the passes by its runs and a D' |
| `Solver.PassesPrefix` | workspaces/cube-clarity-front/src/lib/rubikcube/RubikCube/RubikCubeSolver.ts:1417-1424 | the first passes of a run of passes are passes too |
| `Solver.PassAt` | workspaces/cube-clarity-front/src/lib/rubikcube/RubikCube/RubikCubeSolver.ts:1417-1424 | each pass follows the passes before it and runs until D[0][2] is yellow |
| `Solver.YellowWithin` | workspaces/cube-clarity-front/src/lib/rubikcube/RubikCube/RubikCubeSolver.ts:1418-1421 | a pass that ends within the fuel rules out running out of fuel from where it starts |
| `Solver.LastLayerFailsAt` | workspaces/cube-clarity-front/src/lib/rubikcube/RubikCube/RubikCubeSolver.ts:1417-1421 | fewer than four passes followed by one that cannot make D[0][2] yellow within the fuel: stage 7 fails |
| `Solver.WithinFuelStep` | workspaces/cube-clarity-front/src/lib/rubikcube/RubikCube/RubikCubeSolver.ts:1417-1421 | a pass within the fuel keeps every pass within it |
| `Solver.LastLayerSucceeds` | workspaces/cube-clarity-front/src/lib/rubikcube/RubikCube/RubikCubeSolver.ts:1417-1424 | four passes each within the fuel: stage 7 does not fail, since the passes are determined by the cube |
| `Solver.SolveLastLayer` | workspaces/cube-clarity-front/src/lib/rubikcube/RubikCube/RubikCubeSolver.ts:1397-1438 | the moves are four passes, each running lastAlgorithm until D[0][2] is yellow (at most `fuel` runs each) and then D', followed by the closing turn for the cube reached; `Err(OutOfFuel)` exactly when `LastLayerFails`: after fewer than four such passes, no count of runs up to `fuel` makes D[0][2] yellow; with a yellow down face the answer is four D' turns and the closing turn |
| `Solver.NoRunsPass` | workspaces/cube-clarity-front/src/lib/rubikcube/RubikCube/RubikCubeSolver.ts:1417-1424 | with the down face all yellow, every pass runs lastAlgorithm no time and D' keeps the face yellow |
| `Solver.YellowDownAnswer` | workspaces/cube-clarity-front/src/lib/rubikcube/RubikCube/RubikCubeSolver.ts:1397-1438 | with the down face all yellow, stage 7's answer is the one of four passes of no runs |
| `Solver.NoRunsAreFourDownTurns` | workspaces/cube-clarity-front/src/lib/rubikcube/RubikCube/RubikCubeSolver.ts:1417-1424 | four passes of no runs are four D' turns |
| `Solver.FourDownTurns` | workspaces/cube-clarity-front/src/lib/rubikcube/RubikCube/RubikCubeSolver.ts:1409 | four D' turns bring any cube back |
| `Solver.SolvedNeedsNoLastAdjustment` | workspaces/cube-clarity-front/src/lib/rubikcube/RubikCube/RubikCubeSolver.ts:1426-1435 | on the solved cube no closing turn is made (F[2][1] is green) |
| `Solver.SolvedLastLayerAnswer` | workspaces/cube-clarity-front/src/lib/rubikcube/RubikCube/RubikCubeSolver.ts:1397-1438 | on the solved cube stage 7 plays four D' turns |
| `Solver.SolveRubikCube` | workspaces/cube-clarity-front/src/lib/rubikcube/RubikCube/RubikCubeSolver.ts:47-97 | step 1 starts from the input and each later step from the cube the previous step reached, and each step's moves are exactly what its stage returns from that start (`StagesAgree`: stages 1 to 3 with `fuel` rounds per loop); an error exactly when `SolveError` names one, and then that error: `OutOfFuel` when a loop of stages 1 to 3 or of stage 7 runs out, the stage 6 error when no corner holds its colours; on the solved cube the answer is six empty steps and four D' turns |
| `Solver.SolutionReplays` | workspaces/cube-clarity-front/src/lib/rubikcube/RubikCube/RubikCubeSolver.ts:47-97 | playing all seven steps' moves from the input ends where step 7 ends |
| `Solver.SolutionDetermined` | workspaces/cube-clarity-front/src/lib/rubikcube/RubikCube/RubikCubeSolver.ts:47-97 | two answers that are chained from the same input and agree with their stages are equal: the stages leave no choice |
| `Solver.SolvedRunKeepsSolved` | workspaces/cube-clarity-front/src/lib/rubikcube/RubikCube/RubikCubeSolver.ts:47-97 | the answer for the solved cube is chained and leaves the cube solved |
| `Solver.DefaultLooksSolved` | workspaces/cube-clarity-front/src/lib/rubikcube/RubikCube/RubikCube.ts:80-103 | the solved cube shows each face's solved colour on every facelet |
| `Solver.NoWhiteCorners` | workspaces/cube-clarity-front/src/lib/rubikcube/RubikCube/RubikCubeSolver.ts:614 | with no white on any scanned corner none is reported |
| `Solver.NoYellowFreeEdges` | workspaces/cube-clarity-front/src/lib/rubikcube/RubikCube/RubikCubeSolver.ts:796 | with yellow on every scanned edge none is reported |
| `Solver.AllSidesNotYellow` | workspaces/cube-clarity-front/src/lib/rubikcube/RubikCube/RubikCubeSolver.ts:1005 | with no yellow side facelet every position is collected |
| `Solver.NoWhiteInSolved` | workspaces/cube-clarity-front/src/lib/rubikcube/RubikCube/RubikCubeSolver.ts:369 | a table that reads only side faces finds no white on the solved cube |
| `Solver.SolvedWhiteCrossDone` | workspaces/cube-clarity-front/src/lib/rubikcube/RubikCube/RubikCubeSolver.ts:99-545 | stage 1 has nothing to do on the solved cube |
| `Solver.SolvedCornerColors` | workspaces/cube-clarity-front/src/lib/rubikcube/RubikCube/RubikCubeSolver.ts:608-612 | on the solved cube a corner shows its three faces' colours |
| `Solver.SolvedNoWhiteCorners` | workspaces/cube-clarity-front/src/lib/rubikcube/RubikCube/RubikCubeSolver.ts:548-620 | on the solved cube no down corner shows white |
| `Solver.NothingFires` | workspaces/cube-clarity-front/src/lib/rubikcube/RubikCube/RubikCubeSolver.ts:651-663 | when no entry fires there is no fix |
| `Solver.SolvedUpperLayerFixed` | workspaces/cube-clarity-front/src/lib/rubikcube/RubikCube/RubikCubeSolver.ts:622-664 | on the solved cube fixUpperLayer returns nothing |
| `Solver.SolvedWhiteLayerDone` | workspaces/cube-clarity-front/src/lib/rubikcube/RubikCube/RubikCubeSolver.ts:714-777 | stage 2 has nothing to do on the solved cube |
| `Solver.SolvedNoYellowFreeEdges` | workspaces/cube-clarity-front/src/lib/rubikcube/RubikCube/RubikCubeSolver.ts:783-802 | on the solved cube every down edge shows yellow |
| `Solver.SolvedMiddleEdgesFixed` | workspaces/cube-clarity-front/src/lib/rubikcube/RubikCube/RubikCubeSolver.ts:804-844 | on the solved cube fixFlippedEdge returns nothing |
| `Solver.SolvedSecondLayerDone` | workspaces/cube-clarity-front/src/lib/rubikcube/RubikCube/RubikCubeSolver.ts:913-979 | stage 3 has nothing to do on the solved cube |
| `Solver.SolvedYellowCrossDone` | workspaces/cube-clarity-front/src/lib/rubikcube/RubikCube/RubikCubeSolver.ts:1000-1027 | on the solved cube the key names all four sides and no move is played |
| `Solver.SolvedCrossColorDone` | workspaces/cube-clarity-front/src/lib/rubikcube/RubikCube/RubikCubeSolver.ts:1074-1078 | on the solved cube no down edge shows green at the side, so stage 5 plays nothing |
| `Solver.SolvedCornersCorrect` | workspaces/cube-clarity-front/src/lib/rubikcube/RubikCube/RubikCubeSolver.ts:1349-1352 | on the solved cube all four corners hold their colour sets |
| `Solver.SolvedFace` | workspaces/cube-clarity-front/src/lib/rubikcube/RubikCube/RubikCube.ts:80-103 | a face all of whose facelets show its solved colour is the uniform face of that colour |
| `Solver.LooksSolvedIsDefault` | workspaces/cube-clarity-front/src/lib/rubikcube/RubikCube/RubikCube.ts:80-103 | a cube shows the solved colours everywhere exactly when it is default() |
| `Solver.SolvedIsDone` | workspaces/cube-clarity-front/src/lib/rubikcube/RubikCube/RubikCubeSolver.ts:47-97 | on the solved cube stages 1 and 4 to 6 find nothing to do and the down face is all yellow |

## Left out

- Base64: `encodeBase64` and `decodeBase64` (RubikCube.ts:153-155, :218-220, :506-508) call into a library implementing RFC 4648 section 4, so only the 27-byte layer is modelled.
- Rendering and animation: Three.js, React and the console-styled `netWithColor` are left out.
- CubeState.Apply and MoveNotation.Notation have no `ensures` of their own. Every proof that mentions them would pay for one. Their properties are separate lemmas, named in their rows.
- Box-drawing characters:
  - `Helper.RubikCubeNet` gives the net as a 9 x 12 grid of two-wide cells.
  - It does not model the template's box-drawing characters or line breaks.
  - It models which facelet goes into which cell.
- Helper.CollectResult: works over a finite sequence instead of a lazy iterator.
  - That it reads nothing past the first error is stated as the result not depending on later elements (`Helper.CollectFirstErr`).
  - Iterator side effects are not modelled.
- MoveNotation.UpperChar: upper-cases only ASCII a..z. Unicode case mappings of other characters are not modelled.
- FaceColor.DecodeColor: takes an integer. Non-integral JavaScript numbers are not modelled; the codec only passes nibbles.
- Error classes: errors are a datatype carrying the offending value (buffer length, colour number or raw token). Their message texts and class hierarchy are left out.
- Solver loops:
  - These loops have no bound in the source: the `while` loops of `solveWhiteCross`, the `while (true)` loops of `solveWhiteLayer` and `solveSecondLayer`, and the inner `while` of `solveLastLayer`.
  - In the model each takes a `fuel` count: a `while` gets at most `fuel` rounds, a `while (true)` at most `fuel` passes, and each inner `while` of `solveLastLayer` at most `fuel` runs.
  - Running out is `Err(OutOfFuel)`, and the contracts say exactly when that happens: `Solver.RunUntilYellow` through `NeverYellowWithin`, `Solver.SolveLastLayer` through `LastLayerFails`, stages 1 to 3 through their specification functions, and `Solver.SolveRubikCube` through `SolveError`.
  - Termination is not proved for arbitrary cubes.
- Solver.SolveRubikCube: does not prove that the 20 scrambles of `RubikCubeSolver.test.ts` end solved.
  - Evaluating the solver symbolically on concrete scrambles is beyond what the verifier does here.
  - What is proved instead covers every cube. Each step's moves are exactly what its stage's specification function gives from where the step starts (`StagesAgree` in the contract). Each step starts where the previous one ended (`Chained`). The seven steps replay from the input (`Solver.SolutionReplays`), and no other answer meets both conditions (`Solver.SolutionDetermined`).
  - What is also proved: on the solved cube the answer is six empty steps and four D' turns, which leave it solved (`Solver.SolvedRunKeepsSolved`).
- Solver.SolveYellowCorners: where the source would call `checkCorrectColor(cube, "")` and throw, the model returns `Err(UndefinedCornerColors)`. That happens when no corner holds its colours even after one algorithm.
- SolverTables.AdjacentFace: `getAdjacentFace` throws on keys other than the four edge keys. The model requires one of those keys, which is all the solver passes.
- Solved cube: the solver's statements about the solved cube assume `Solver.LooksSolved`, every facelet showing its face's colour. `Solver.LooksSolvedIsDefault` proves this is the same as being `default()`.
- Solver.SolveLastLayer: returns only the moves, as the source does.
  - Its contract says the moves are four passes whose run counts are the fewest that make D[0][2] yellow, followed by the closing turn.
  - The counts are existentially quantified. `Solver.PassesUnique` shows that the cube determines them.
- Lookup-table functions in `solver_tables.dfy`: these are the source's tables written out entry by entry. Their contracts state only summary facts (which keys have entries, which face the moves turn).
- `rubikCubeNet` is imported from `./helper` by the front `RubikCube.ts`, but the front `helper.ts` defines only `collectResult`. The net is therefore modelled from the core workspace's `helper.ts`.
