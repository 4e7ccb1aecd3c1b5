/** The six sticker colours, their letters, hex values and 4-bit codes. */
module FaceColor {
  import opened Wrappers
  import opened Errors

  /** FACE_COLOR: White "W", Yellow "Y", Green "G", Blue "B", Orange "O", Red "R". */
  datatype Color = White | Yellow | Green | Blue | Orange | Red

  /** The one-letter name of a colour. */
  function Letter(c: Color): (r: char)
    ensures r in "WYGBOR"
  {
    match c
    case White => 'W'
    case Yellow => 'Y'
    case Green => 'G'
    case Blue => 'B'
    case Orange => 'O'
    case Red => 'R'
  }

  /** The letters name the colours one to one. */
  lemma LetterInjective(a: Color, b: Color)
    ensures Letter(a) == Letter(b) <==> a == b
  {
  }

  /** rubikCubeFaceColorToHex: the 24-bit RGB value drawn for a colour. */
  function ToHex(c: Color): (r: nat)
    ensures r < 0x100_0000
  {
    match c
    case White => 0xFFFFFF
    case Yellow => 0xFFD500
    case Green => 0x009B48
    case Blue => 0x0045AD
    case Orange => 0xFF5900
    case Red => 0xB90000
  }

  /** Six distinct colours are drawn in six distinct hues. */
  lemma ToHexInjective(a: Color, b: Color)
    ensures ToHex(a) == ToHex(b) <==> a == b
  {
  }

  /**
   * encodeRubikCubeFaceColor: W, Y, G, B, O, R get the codes 0 to 5 in
   * that order; every code fits in the four bits the codec gives it.
   */
  function EncodeColor(c: Color): (r: nat)
    ensures r < 6 && r < 16
    ensures r == 0 <==> c == White
    ensures r == 1 <==> c == Yellow
    ensures r == 2 <==> c == Green
    ensures r == 3 <==> c == Blue
    ensures r == 4 <==> c == Orange
    ensures r == 5 <==> c == Red
  {
    match c
    case White => 0
    case Yellow => 1
    case Green => 2
    case Blue => 3
    case Orange => 4
    case Red => 5
  }

  /**
   * decodeRubikCubeFaceColor: the codes 0 to 5 give back their colour;
   * any other number is a colour error carrying that number.
   */
  function DecodeColor(colorNumber: int): (r: Result<Color, RubikCubeError>)
    ensures r.Ok? <==> 0 <= colorNumber < 6
    ensures r.Ok? ==> EncodeColor(r.value) == colorNumber
    ensures r.Err? ==> r.error == DecodeRubikCubeFaceColorError(colorNumber)
  {
    match colorNumber
    case 0 => Ok(White)
    case 1 => Ok(Yellow)
    case 2 => Ok(Green)
    case 3 => Ok(Blue)
    case 4 => Ok(Orange)
    case 5 => Ok(Red)
    case _ => Err(DecodeRubikCubeFaceColorError(colorNumber))
  }

  /** Decoding an encoded colour gives the colour back. */
  lemma DecodeEncodeColor(c: Color)
    ensures DecodeColor(EncodeColor(c)) == Ok(c)
  {
  }

  /** Distinct colours get distinct codes. */
  lemma EncodeColorInjective(a: Color, b: Color)
    ensures EncodeColor(a) == EncodeColor(b) <==> a == b
  {
  }

  /** Every nibble value from 6 to 15 is rejected. */
  lemma DecodeRejectsHighNibbles(n: int)
    requires 6 <= n < 16
    ensures DecodeColor(n) == Err(DecodeRubikCubeFaceColorError(n))
  {
  }
}
