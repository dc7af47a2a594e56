/** A text is a sequence of Unicode scalar values; the browser sees its UTF-16 code units
    (section 2.1 of RFC 2781).  The server's check that the bytes are valid UTF-8 is part
    of having such a text. */
module CodeUnits {
  type Scalar = r: int | 0 <= r < 0x110000 && !(0xD800 <= r < 0xE000)

  type Unit = int

  const AT_SIGN := 0x40

  function Encode(r: Scalar): (units: seq<Unit>)
    ensures 1 <= |units| <= 2
    ensures !IsLow(units[0])
    ensures |units| == 2 ==> IsHigh(units[0]) && IsLow(units[1])
    ensures |units| == 1 ==> !IsHigh(units[0])
    ensures AT_SIGN in units <==> r == AT_SIGN
  {
    if r < 0x10000 then [r] else [0xD800 + (r - 0x10000) / 0x400, 0xDC00 + (r - 0x10000) % 0x400]
  }

  predicate IsHigh(u: Unit) {
    0xD800 <= u <= 0xDBFF
  }

  predicate IsLow(u: Unit) {
    0xDC00 <= u <= 0xDFFF
  }

  function Utf16(text: seq<Scalar>): seq<Unit> {
    if text == [] then [] else Utf16(text[..|text| - 1]) + Encode(text[|text| - 1])
  }

  /** The units give the scalar value back. */
  lemma EncodeDecodes(r: Scalar)
    ensures var units := Encode(r);
            r == if |units| == 1 then units[0] else 0x10000 + (units[0] - 0xD800) * 0x400 + (units[1] - 0xDC00)
    ensures |Encode(r)| == 1 <==> r < 0x10000
  {
  }
}
