/**
 * The colour types of the `colors` package: an 8-bit NRGBA colour, the
 * 2-byte RGB565 TinyColor (high byte first) used by the displays, its
 * expansion to 16-bit channels, and the colour model that converts any
 * colour to a TinyColor.
 */
module Colors {
  import opened GoTypes

  /** A non-premultiplied 8-bit colour (Go's color.NRGBA). */
  datatype Color = Color(r: bv8, g: bv8, b: bv8, a: bv8)

  /** NewColor: the three channels as given, fully opaque. */
  function NewColor(r: bv8, g: bv8, b: bv8): (c: Color)
    ensures c.r == r && c.g == g && c.b == b && c.a == 0xFF
  {
    Color(r, g, b, 0xFF)
  }

  /** An RGB565 colour as the two bytes sent to a display, high byte first. */
  datatype TinyColor = TinyColor(hb: bv8, lb: bv8)

  /** The 16-bit RGB565 word the two bytes form. */
  function Word(c: TinyColor): bv16
  {
    ((c.hb as bv16) << 8) | (c.lb as bv16)
  }

  /**
   * NewTinyColor: red keeps its top 5 bits in bits 15..11 of the word,
   * green its top 6 bits in bits 10..5 and blue its top 5 bits in bits 4..0.
   */
  function NewTinyColor(r: bv8, g: bv8, b: bv8): (c: TinyColor)
    ensures Word(c) == (((r >> 3) as bv16) << 11) | (((g >> 2) as bv16) << 5) | ((b >> 3) as bv16)
  {
    TinyColor((r & 0xF8) | ((g & 0xFC) >> 5), ((g & 0xFC) << 3) | ((b & 0xF8) >> 3))
  }

  /** NewTinyHexColor: `0xRRGGBB` packed; the top byte of `hex` is ignored. */
  function NewTinyHexColor(hex: bv32): (c: TinyColor)
    ensures Word(c) == (((((hex >> 19) & 0x1F) as bv16) << 11)
                        | ((((hex >> 10) & 0x3F) as bv16) << 5)
                        | (((hex >> 3) & 0x1F) as bv16))
  {
    var r := ((hex >> 16) & 0xFF) as bv8;
    var g := ((hex >> 8) & 0xFF) as bv8;
    var b := ((hex >> 0) & 0xFF) as bv8;
    NewTinyColor(r, g, b)
  }

  /** 16-bit premultiplied channels as Go's color.Color.RGBA returns them, each a uint32. */
  datatype Rgba = Rgba(r: uint32, g: uint32, b: uint32, a: uint32)

  /** A byte `x` widened to 16 bits by repeating it in the high byte (`x | x << 8`). */
  function Widen(x: bv8): (w: uint32)
  {
    x as int * 0x101
  }

  /** The high byte of a 16-bit channel, truncated to 8 bits (`uint8(c >> 8)`). */
  function HighByte(c: uint32): bv8
  {
    ((c / 0x100) % 0x100) as bv8
  }

  /** Widening a byte and taking the high byte gives the byte back. */
  lemma WidenHigh(x: bv8)
    ensures HighByte(Widen(x)) == x
  {
    var n := x as int;
    assert (n * 0x101) / 0x100 % 0x100 == n by {
      WidenArith(n);
    }
  }

  lemma WidenArith(n: nat)
    requires n < 0x100
    ensures (n * 0x101) / 0x100 % 0x100 == n
  {
  }

  /**
   * TinyColor.RGBA: each 5- or 6-bit field is moved to the top of a byte,
   * the low bits zero, and that byte is widened; the colour is opaque.
   */
  function RGBA(c: TinyColor): (q: Rgba)
    ensures q.r == Widen(((Word(c) >> 11) as bv8) << 3)
    ensures q.g == Widen((((Word(c) >> 5) & 0x3F) as bv8) << 2)
    ensures q.b == Widen(((Word(c) & 0x1F) as bv8) << 3)
    ensures q.a == 0xFFFF
  {
    var r := c.hb & 0xF8;
    var g := ((c.hb & 0x07) << 5) | ((c.lb & 0xE0) >> 3);
    var b := (c.lb << 3) & 0xF8;
    Rgba(Widen(r), Widen(g), Widen(b), 0xFFFF)
  }

  /** Packing keeps the top bits of each channel: expanding gives back those bits, widened. */
  lemma RoundTrip(r: bv8, g: bv8, b: bv8)
    ensures RGBA(NewTinyColor(r, g, b)) == Rgba(Widen(r & 0xF8), Widen(g & 0xFC), Widen(b & 0xF8), 0xFFFF)
  {
    PackedFields(r, g, b);
  }

  /** The bytes RGBA widens, read back from a packed colour, are the kept top bits of each channel. */
  lemma PackedFields(r: bv8, g: bv8, b: bv8)
    ensures var c := NewTinyColor(r, g, b);
      && c.hb & 0xF8 == r & 0xF8
      && ((c.hb & 0x07) << 5) | ((c.lb & 0xE0) >> 3) == g & 0xFC
      && (c.lb << 3) & 0xF8 == b & 0xF8
  {
  }

  /** Packing the high bytes of an expanded TinyColor gives the TinyColor back. */
  lemma RepackIsIdentity(c: TinyColor)
    ensures var q := RGBA(c);
      NewTinyColor(HighByte(q.r), HighByte(q.g), HighByte(q.b)) == c
  {
    var r := c.hb & 0xF8;
    var g := ((c.hb & 0x07) << 5) | ((c.lb & 0xE0) >> 3);
    var b := (c.lb << 3) & 0xF8;
    WidenHigh(r);
    WidenHigh(g);
    WidenHigh(b);
    UnpackedFieldsRepack(c);
  }

  /** The three top-aligned fields RGBA reads from a TinyColor pack back to that TinyColor. */
  lemma UnpackedFieldsRepack(c: TinyColor)
    ensures NewTinyColor(c.hb & 0xF8, ((c.hb & 0x07) << 5) | ((c.lb & 0xE0) >> 3), (c.lb << 3) & 0xF8) == c
  {
  }

  /** A colour handed to the TinyColor model: a TinyColor, or any other colour by its RGBA channels. */
  datatype AnyColor = Tiny(tiny: TinyColor) | Other(q: Rgba)

  /** One channel un-premultiplied in 32-bit arithmetic: `(c * 0xffff) / a`, the product wrapping at 2^32. */
  function Scale(c: uint32, a: uint32): (s: uint32)
    requires a != 0
  {
    ((c * 0xFFFF) % Uint32Limit) / a
  }

  /**
   * tinyModel: a TinyColor is returned as it is; an opaque colour keeps the
   * high byte of each channel; a fully transparent one becomes black; any
   * other is un-premultiplied channel by channel before packing.
   */
  function TinyModel(c: AnyColor): (t: TinyColor)
    ensures c.Tiny? ==> t == c.tiny
    ensures c.Other? && c.q.a == 0 ==> t == TinyColor(0, 0)
  {
    match c
    case Tiny(t) => t
    case Other(Rgba(r, g, b, a)) =>
      if a == 0xFFFF then NewTinyColor(HighByte(r), HighByte(g), HighByte(b))
      else if a == 0 then NewTinyColor(0, 0, 0)
      else NewTinyColor(HighByte(Scale(r, a)), HighByte(Scale(g, a)), HighByte(Scale(b, a)))
  }

  /** A TinyColor's own channels, seen as any colour, convert back to that TinyColor. */
  lemma ModelOfExpansion(c: TinyColor)
    ensures TinyModel(Other(RGBA(c))) == c
  {
    RepackIsIdentity(c);
  }

  /**
   * For a channel within its alpha, as the colour contract promises, the
   * 32-bit product does not wrap and the un-premultiplied channel is again
   * a 16-bit value, so its high byte loses nothing.
   */
  lemma ScaleExact(c: uint32, a: uint32)
    requires c <= a <= 0xFFFF && a != 0
    ensures Scale(c, a) == c * 0xFFFF / a <= 0xFFFF
  {
    var p := c * 0xFFFF;
    assert p <= a * 0xFFFF < Uint32Limit;
    assert p % Uint32Limit == p;
    DivideBelow(p, a, 0xFFFF);
  }

  /** For an opaque colour the general formula agrees with the shortcut tinyModel takes. */
  lemma OpaqueShortcutAgrees(c: uint32)
    requires c <= 0xFFFF
    ensures Scale(c, 0xFFFF) == c
  {
    assert (c * 0xFFFF) % Uint32Limit == c * 0xFFFF;
  }
}
