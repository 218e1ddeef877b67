// The built-in hexadecimal font that initialiseFont (src/vm.go) stores at
// 0x050-0x09F: sixteen 4x5-pixel glyphs, one byte per row, the pixels in the
// high nibble.

module Font {
  import opened Opcode

  /** Address of the first glyph byte (digit 0, row 0). */
  const Base: nat := 0x050

  /** Number of bytes in the table: 16 glyphs of 5 rows. */
  const Size: nat := 80

  /** The five rows of the glyph for hex digit d, top row first. */
  function Glyph(d: nat): (rows: seq<Byte>)
    requires d < 16
    ensures |rows| == 5
    ensures forall r | 0 <= r < 5 :: rows[r] % 16 == 0
  {
    match d
    case 0x0 => [0xF0, 0x90, 0x90, 0x90, 0xF0]
    case 0x1 => [0x20, 0x60, 0x20, 0x20, 0x70]
    case 0x2 => [0xF0, 0x10, 0xF0, 0x80, 0xF0]
    case 0x3 => [0xF0, 0x10, 0xF0, 0x10, 0xF0]
    case 0x4 => [0x90, 0x90, 0xF0, 0x10, 0x10]
    case 0x5 => [0xF0, 0x80, 0xF0, 0x10, 0xF0]
    case 0x6 => [0xF0, 0x80, 0xF0, 0x90, 0xF0]
    case 0x7 => [0xF0, 0x10, 0x20, 0x40, 0x40]
    case 0x8 => [0xF0, 0x90, 0xF0, 0x90, 0xF0]
    case 0x9 => [0xF0, 0x90, 0xF0, 0x10, 0xF0]
    case 0xA => [0xF0, 0x90, 0xF0, 0x90, 0x90]
    case 0xB => [0xE0, 0x90, 0xE0, 0x90, 0xE0]
    case 0xC => [0xF0, 0x80, 0x80, 0x80, 0xF0]
    case 0xD => [0xE0, 0x90, 0x90, 0x90, 0xE0]
    case 0xE => [0xF0, 0x80, 0xF0, 0x80, 0xF0]
    case 0xF => [0xF0, 0x80, 0xF0, 0x80, 0x80]
  }

  /** The glyphs of digits 0 .. k-1, one after the other. */
  function Glyphs(k: nat): (t: seq<Byte>)
    requires k <= 16
    ensures |t| == 5 * k
  {
    if k == 0 then [] else Glyphs(k - 1) + Glyph(k - 1)
  }

  /** Row r of digit d sits at offset 5 * d + r of the table. */
  lemma {:induction false} GlyphsRow(k: nat, d: nat, r: nat)
    requires k <= 16 && d < k && r < 5
    ensures Glyphs(k)[5 * d + r] == Glyph(d)[r]
  {
    if d < k - 1 {
      GlyphsRow(k - 1, d, r);
    }
  }

  /** The font table, as the 80 bytes stored from Base upward. */
  function Table(): (t: seq<Byte>)
    ensures |t| == Size
    ensures forall d, r | 0 <= d < 16 && 0 <= r < 5 :: t[5 * d + r] == Glyph(d)[r]
  {
    var t := Glyphs(16);
    forall d, r | 0 <= d < 16 && 0 <= r < 5 ensures t[5 * d + r] == Glyph(d)[r] {
      GlyphsRow(16, d, r);
    }
    t
  }
}
