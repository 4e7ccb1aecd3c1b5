/**
 * The error taxonomy of the cube library: every failure is a
 * `RubikCubeError`, one of the three kinds below. The human-readable
 * messages the library attaches to them are not modelled.
 */
module Errors {
  datatype RubikCubeError =
    /** `decode` was given a buffer whose length is not 27. */
    | RubikCubeDecodeError(length: nat)
    /** A 4-bit colour code that is not one of the six colours. */
    | DecodeRubikCubeFaceColorError(colorNumber: int)
    /** A move token that is not one of the 18 notations, as the caller wrote it. */
    | RubikCubeBadMoveNotationError(moveNotation: string)
}
