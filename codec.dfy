/**
 * The 27-byte encoding of a cube: the 54 facelets in iterator order (U, D,
 * F, B, L, R, each row by row) as colour codes, two codes per byte with
 * the even-indexed facelet in the high nibble.
 */
module Codec {
  import opened Wrappers
  import opened Errors
  import opened FaceColor
  import opened CubeState
  import opened Helper

  /** RUBIK_CUBE_ENCODED_DATA_LENGTH. */
  const EncodedDataLength: nat := 27

  /** encodeRubikCubeFaceColor as a byte. */
  function Code(c: Color): (b: bv8)
    ensures b as int == EncodeColor(c)
  {
    match c
    case White => 0
    case Yellow => 1
    case Green => 2
    case Blue => 3
    case Orange => 4
    case Red => 5
  }

  /** `encode(left) << 4 | encode(right)`. */
  function PackByte(left: Color, right: Color): (b: bv8)
    ensures b >> 4 == Code(left) && b & 0xF == Code(right)
  {
    var a := Code(left);
    var c := Code(right);
    assert a < 16 && c < 16;
    (a << 4) | c
  }

  /** Both codes are below 16, so the shift and the `|` never mix them. */
  lemma PackByteSeparates(left: Color, right: Color)
    ensures (PackByte(left, right) >> 4) as int == EncodeColor(left)
    ensures (PackByte(left, right) & 0xF) as int == EncodeColor(right)
  {
    var a := Code(left);
    var b := Code(right);
    assert a < 16 && b < 16;
    assert ((a << 4) | b) >> 4 == a && ((a << 4) | b) & 0xF == b;
  }

  /** `chunked(2)` then the byte of each pair. */
  function Pack(colors: seq<Color>): (bytes: seq<bv8>)
    requires |colors| % 2 == 0
    ensures |bytes| == |colors| / 2
  {
    if |colors| == 0 then [] else [PackByte(colors[0], colors[1])] + Pack(colors[2..])
  }

  /** Byte `i` packs facelets `2 i` and `2 i + 1`. */
  lemma {:induction false} PackAt(colors: seq<Color>, i: nat)
    requires |colors| % 2 == 0 && i < |colors| / 2
    ensures Pack(colors)[i] == PackByte(colors[2 * i], colors[2 * i + 1])
  {
    if i > 0 {
      PackAt(colors[2..], i - 1);
    }
  }

  /** encode(rubikCube): 27 bytes, two facelets each. */
  function Encode(c: Cube): (bytes: seq<bv8>)
    ensures |bytes| == EncodedDataLength
  {
    Pack(Facelets(c))
  }

  /** `flatMap(value => [value >> 4, value & 0b1111])`. */
  function Nibbles(buffer: seq<bv8>): (ns: seq<int>)
    ensures |ns| == 2 * |buffer|
  {
    if |buffer| == 0 then []
    else [(buffer[0] >> 4) as int, (buffer[0] & 0xF) as int] + Nibbles(buffer[1..])
  }

  /** Every nibble is below 16. */
  lemma {:induction false} NibblesBelow16(buffer: seq<bv8>)
    ensures forall k :: 0 <= k < |Nibbles(buffer)| ==> 0 <= Nibbles(buffer)[k] < 16
  {
    if |buffer| > 0 {
      NibblesBelow16(buffer[1..]);
      var b := buffer[0];
      assert b >> 4 < 16 && b & 0xF < 16;
    }
  }

  /** The colour codes of the facelets, in order. */
  function Codes(colors: seq<Color>): (ns: seq<int>)
    ensures |ns| == |colors|
  {
    seq(|colors|, k requires 0 <= k < |colors| => EncodeColor(colors[k]) as int)
  }

  /** `map(decodeRubikCubeFaceColor)` over the nibbles. */
  function DecodeAll(ns: seq<int>): (rs: seq<Result<Color, RubikCubeError>>)
    ensures |rs| == |ns|
  {
    seq(|ns|, i requires 0 <= i < |ns| => DecodeColor(ns[i]))
  }

  /**
   * decode(buffer): a decode error unless the length is 27, then the first
   * colour error among the 54 nibbles, else the nibbles as faces.
   */
  function Decode(buffer: seq<bv8>): (r: Result<Cube, RubikCubeError>)
    ensures |buffer| != EncodedDataLength ==> r == Err(RubikCubeDecodeError(|buffer|))
  {
    if |buffer| != EncodedDataLength then Err(RubikCubeDecodeError(|buffer|))
    else
      match Collect(DecodeAll(Nibbles(buffer)))
      case Err(e) => Err(e)
      case Ok(colors) => Ok(FromFacelets(colors))
  }

  /** The nibbles of packed facelets are their colour codes. */
  lemma {:induction false} NibblesOfPack(colors: seq<Color>)
    requires |colors| % 2 == 0
    ensures Nibbles(Pack(colors)) == Codes(colors)
  {
    if |colors| > 0 {
      NibblesOfPack(colors[2..]);
      PackByteSeparates(colors[0], colors[1]);
      assert Pack(colors)[1..] == Pack(colors[2..]);
    }
  }

  /** decode(encode(c)) gives back `c`, faces reassembled in U, D, F, B, L, R order. */
  lemma DecodeEncode(c: Cube)
    ensures Decode(Encode(c)) == Ok(c)
  {
    var s := Facelets(c);
    var rs := DecodeAll(Nibbles(Encode(c)));
    NibblesOfPack(s);
    forall k | 0 <= k < |rs|
      ensures rs[k] == Ok(s[k])
    {
      DecodeEncodeColor(s[k]);
    }
    CollectAllOk(rs);
    assert Collect(rs).value == s;
    FromFaceletsOfFacelets(c);
  }

  /** A byte is its high nibble shifted back up, or-ed with its low nibble. */
  lemma ByteFromNibbles(left: Color, right: Color, b: bv8)
    requires EncodeColor(left) == (b >> 4) as int && EncodeColor(right) == (b & 0xF) as int
    ensures PackByte(left, right) == b
  {
    assert Code(left) == b >> 4 && Code(right) == b & 0xF;
    assert (((b >> 4) << 4) | (b & 0xF)) == b;
  }

  /** Facelets whose codes are the nibbles of a buffer pack back into that buffer. */
  lemma {:induction false} PackOfNibbles(colors: seq<Color>, buffer: seq<bv8>)
    requires Codes(colors) == Nibbles(buffer)
    ensures |colors| % 2 == 0 && Pack(colors) == buffer
  {
    if |buffer| > 0 {
      assert Codes(colors[2..]) == Nibbles(buffer[1..]) by {
        assert Codes(colors)[2..] == Codes(colors[2..]);
        assert Nibbles(buffer)[2..] == Nibbles(buffer[1..]);
      }
      PackOfNibbles(colors[2..], buffer[1..]);
      assert Codes(colors)[0] == Nibbles(buffer)[0] && Codes(colors)[1] == Nibbles(buffer)[1];
      ByteFromNibbles(colors[0], colors[1], buffer[0]);
    }
  }

  /** Decoding codes 0..15 succeeds throughout exactly when every code is below 6. */
  lemma DecodeAllOk(ns: seq<int>)
    requires forall k :: 0 <= k < |ns| ==> 0 <= ns[k]
    ensures AllOk(DecodeAll(ns)) <==> forall k :: 0 <= k < |ns| ==> ns[k] < 6
  {
    var rs := DecodeAll(ns);
    assert forall k :: 0 <= k < |ns| ==> (rs[k].Ok? <==> ns[k] < 6);
  }

  /** The colours decoded from codes carry those codes again. */
  lemma CodesOfDecoded(ns: seq<int>)
    requires AllOk(DecodeAll(ns))
    ensures Collect(DecodeAll(ns)).Ok? && Codes(Collect(DecodeAll(ns)).value) == ns
  {
    var rs := DecodeAll(ns);
    CollectAllOk(rs);
    var colors := Collect(rs).value;
    forall k | 0 <= k < |ns|
      ensures Codes(colors)[k] == ns[k]
    {
      assert colors[k] == rs[k].value;
    }
  }

  /** A buffer that decodes is exactly the encoding of what it decodes to. */
  lemma EncodeDecode(buffer: seq<bv8>)
    requires Decode(buffer).Ok?
    ensures Encode(Decode(buffer).value) == buffer
  {
    var rs := DecodeAll(Nibbles(buffer));
    CollectOkIffAllOk(rs);
    CodesOfDecoded(Nibbles(buffer));
    PackOfNibbles(Collect(rs).value, buffer);
  }

  /** The first nibble of 6 or more decides the error, whatever follows. */
  lemma DecodeFirstBadNibble(buffer: seq<bv8>, k: nat)
    requires |buffer| == EncodedDataLength && k < 2 * |buffer|
    requires Nibbles(buffer)[k] >= 6
    requires forall j :: 0 <= j < k ==> Nibbles(buffer)[j] < 6
    ensures Decode(buffer) == Err(DecodeRubikCubeFaceColorError(Nibbles(buffer)[k]))
  {
    var ns := Nibbles(buffer);
    NibblesBelow16(buffer);
    assert FirstErr(DecodeAll(ns), k);
    CollectFirstErr(DecodeAll(ns), k);
  }

  /** A 27-byte buffer decodes exactly when every nibble is a colour code 0..5. */
  lemma DecodeOkIff(buffer: seq<bv8>)
    requires |buffer| == EncodedDataLength
    ensures Decode(buffer).Ok? <==> forall k :: 0 <= k < 2 * |buffer| ==> Nibbles(buffer)[k] < 6
  {
    var ns := Nibbles(buffer);
    DecodeOkWhenCollected(buffer);
    CollectOkIffAllOk(DecodeAll(ns));
    NibblesBelow16(buffer);
    DecodeAllOk(ns);
  }

  /** Past the length check, decode succeeds exactly when collecting the colours does. */
  lemma DecodeOkWhenCollected(buffer: seq<bv8>)
    requires |buffer| == EncodedDataLength
    ensures Decode(buffer).Ok? == Collect(DecodeAll(Nibbles(buffer))).Ok?
  {
  }

  /** Packing splits at any even boundary. */
  lemma {:induction false} PackAppend(a: seq<Color>, b: seq<Color>)
    requires |a| % 2 == 0 && |b| % 2 == 0
    ensures Pack(a + b) == Pack(a) + Pack(b)
  {
    if |a| > 0 {
      assert (a + b)[2..] == a[2..] + b;
      PackAppend(a[2..], b);
    } else {
      assert a + b == b;
    }
  }

  /** `n` copies of one value. */
  function Repeat<T>(x: T, n: nat): (s: seq<T>)
    ensures |s| == n && forall i :: 0 <= i < n ==> s[i] == x
  {
    seq(n, i => x)
  }

  /** Pairs of one colour pack into copies of one byte. */
  lemma {:induction false} PackRepeat(c: Color, n: nat)
    requires n % 2 == 0
    ensures Pack(Repeat(c, n)) == Repeat(PackByte(c, c), n / 2)
  {
    if n > 0 {
      assert Repeat(c, n)[2..] == Repeat(c, n - 2);
      PackRepeat(c, n - 2);
      assert Repeat(PackByte(c, c), n / 2) == [PackByte(c, c)] + Repeat(PackByte(c, c), (n - 2) / 2);
    }
  }

  /** Two uniform faces side by side: four pure bytes, one mixed, four pure. */
  lemma PackTwoFaces(x: Color, y: Color)
    ensures Pack(Uniform(x).Cells() + Uniform(y).Cells()) ==
      [PackByte(x, x), PackByte(x, x), PackByte(x, x), PackByte(x, x), PackByte(x, y),
       PackByte(y, y), PackByte(y, y), PackByte(y, y), PackByte(y, y)]
  {
    assert Uniform(x).Cells() + Uniform(y).Cells() == Repeat(x, 8) + [x, y] + Repeat(y, 8);
    PackAppend(Repeat(x, 8), [x, y]);
    PackAppend(Repeat(x, 8) + [x, y], Repeat(y, 8));
    PackRepeat(x, 8);
    PackRepeat(y, 8);
  }

  /** The bytes of a solved cube's colour pairs. */
  lemma SolvedPairBytes()
    ensures PackByte(White, White) == 0x00 && PackByte(White, Yellow) == 0x01 && PackByte(Yellow, Yellow) == 0x11
    ensures PackByte(Green, Green) == 0x22 && PackByte(Green, Blue) == 0x23 && PackByte(Blue, Blue) == 0x33
    ensures PackByte(Orange, Orange) == 0x44 && PackByte(Orange, Red) == 0x45 && PackByte(Red, Red) == 0x55
  {
  }

  /** The solved cube's facelets, paired up face by face. */
  lemma FaceletsSolved(c: Cube)
    requires c == Default()
    ensures Facelets(c) ==
      (Uniform(White).Cells() + Uniform(Yellow).Cells()) +
      ((Uniform(Green).Cells() + Uniform(Blue).Cells()) + (Uniform(Orange).Cells() + Uniform(Red).Cells()))
  {
  }

  /**
   * The solved cube encodes to 00 00 00 00 01 11 11 11 11 22 ... 45 55 55 55 55:
   * nine bytes for U and D, nine for F and B, nine for L and R.
   */
  lemma EncodeSolved(c: Cube)
    requires c == Default()
    ensures Encode(c) ==
      [0x00, 0x00, 0x00, 0x00, 0x01, 0x11, 0x11, 0x11, 0x11] +
      [0x22, 0x22, 0x22, 0x22, 0x23, 0x33, 0x33, 0x33, 0x33] +
      [0x44, 0x44, 0x44, 0x44, 0x45, 0x55, 0x55, 0x55, 0x55]
  {
    var ud := Uniform(White).Cells() + Uniform(Yellow).Cells();
    var fb := Uniform(Green).Cells() + Uniform(Blue).Cells();
    var lr := Uniform(Orange).Cells() + Uniform(Red).Cells();
    FaceletsSolved(c);
    PackAppend(ud, fb + lr);
    PackAppend(fb, lr);
    PackTwoFaces(White, Yellow);
    PackTwoFaces(Green, Blue);
    PackTwoFaces(Orange, Red);
    SolvedPairBytes();
  }
}
