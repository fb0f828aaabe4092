/** Rust's fixed-width integers, as ranges of `int`, and their `FromStr` parsers. */
module Ints {
  import opened Wrappers
  import opened Strings

  type U8 = x: int | 0 <= x <= 0xFF
  type I8 = x: int | -0x80 <= x <= 0x7F
  type U16 = x: int | 0 <= x <= 0xFFFF
  type I16 = x: int | -0x8000 <= x <= 0x7FFF
  type U32 = x: int | 0 <= x <= 0xFFFF_FFFF
  type I32 = x: int | -0x8000_0000 <= x <= 0x7FFF_FFFF
  type I64 = x: int | -0x8000_0000_0000_0000 <= x <= 0x7FFF_FFFF_FFFF_FFFF

  function ParseU8(s: string): Option<U8> {
    match ParseInteger(s, 0, 0xFF) case Some(v) => Some(v) case None => None
  }

  function ParseI8(s: string): Option<I8> {
    match ParseInteger(s, -0x80, 0x7F) case Some(v) => Some(v) case None => None
  }

  function ParseU16(s: string): Option<U16> {
    match ParseInteger(s, 0, 0xFFFF) case Some(v) => Some(v) case None => None
  }

  function ParseI16(s: string): Option<I16> {
    match ParseInteger(s, -0x8000, 0x7FFF) case Some(v) => Some(v) case None => None
  }

  function ParseU32(s: string): Option<U32> {
    match ParseInteger(s, 0, 0xFFFF_FFFF) case Some(v) => Some(v) case None => None
  }

  function ParseI32(s: string): Option<I32> {
    match ParseInteger(s, -0x8000_0000, 0x7FFF_FFFF) case Some(v) => Some(v) case None => None
  }

  // `Display` for each width, as function values of that width's type.
  function U8Text(x: U8): string { IntToString(x) }
  function I8Text(x: I8): string { IntToString(x) }
  function U16Text(x: U16): string { IntToString(x) }
  function I16Text(x: I16): string { IntToString(x) }
  function U32Text(x: U32): string { IntToString(x) }
  function I32Text(x: I32): string { IntToString(x) }

  /** Every value of each width prints as text that parses back to it and holds no ','. */
  lemma {:induction false} ParsersInvertToString(a: U8, b: I8, c: U16, d: I16, e: U32, f: I32)
    ensures ParseU8(IntToString(a)) == Some(a) && ParseI8(IntToString(b)) == Some(b)
    ensures ParseU16(IntToString(c)) == Some(c) && ParseI16(IntToString(d)) == Some(d)
    ensures ParseU32(IntToString(e)) == Some(e) && ParseI32(IntToString(f)) == Some(f)
  {
    ParseIntegerOfIntToString(a, 0, 0xFF);
    ParseIntegerOfIntToString(b, -0x80, 0x7F);
    ParseIntegerOfIntToString(c, 0, 0xFFFF);
    ParseIntegerOfIntToString(d, -0x8000, 0x7FFF);
    ParseIntegerOfIntToString(e, 0, 0xFFFF_FFFF);
    ParseIntegerOfIntToString(f, -0x8000_0000, 0x7FFF_FFFF);
  }
}
