/**
 * The pixel editor's fixed 256-entry colour table: index 0 is transparent,
 * indices 1..216 are the 6x6x6 "web safe" colour cube in red-major order,
 * and the remaining 39 entries are evenly stepped greys.
 */
module Palette {
  import opened Wrappers

  /** The transparent entry at index 0, written with an alpha byte. */
  const Transparent: string := "#ffffff00"

  /** The six channel levels of the colour cube (hex 00, 33, 66, 99, CC, FF). */
  const Levels: seq<nat> := [0, 51, 102, 153, 204, 255]

  /** Number of grey entries and the step between them, as the generator works them out. */
  const GrayCount: nat := 39
  const GrayStep: nat := 6

  /** An upper-case hexadecimal digit. */
  function HexDigit(d: nat): (c: char)
    requires d < 16
    ensures '0' <= c <= '9' || 'A' <= c <= 'F'
  {
    if d < 10 then (48 + d) as char else (55 + d) as char
  }

  /** The value of a hexadecimal digit of either case. */
  function DigitValue(c: char): (d: Option<nat>)
    ensures d.Some? ==> d.value < 16
  {
    if '0' <= c <= '9' then Some(c as int - 48)
    else if 'A' <= c <= 'F' then Some(c as int - 55)
    else if 'a' <= c <= 'f' then Some(c as int - 87)
    else None
  }

  /** A channel value as two upper-case hex digits, zero-padded. */
  function Hex2(v: nat): (s: string)
    requires v < 256
    ensures |s| == 2
  {
    [HexDigit(v / 16), HexDigit(v % 16)]
  }

  /** Reads back two hex digits. */
  function ParseHex2(s: string): (v: Option<nat>)
    requires |s| == 2
    ensures v.Some? ==> v.value < 256
  {
    match (DigitValue(s[0]), DigitValue(s[1]))
    case (Some(hi), Some(lo)) => Some(16 * hi + lo)
    case _ => None
  }

  lemma Hex2RoundTrip(v: nat)
    requires v < 256
    ensures ParseHex2(Hex2(v)) == Some(v)
  {
  }

  /** An opaque colour "#RRGGBB". */
  function Rgb(r: nat, g: nat, b: nat): (s: string)
    requires r < 256 && g < 256 && b < 256
    ensures |s| == 7 && s[0] == '#'
  {
    "#" + Hex2(r) + Hex2(g) + Hex2(b)
  }

  /** Reads "#RRGGBB" back into its three channels. */
  function ParseRgb(s: string): (c: Option<(nat, nat, nat)>)
  {
    if |s| != 7 || s[0] != '#' then None
    else
      match (ParseHex2(s[1..3]), ParseHex2(s[3..5]), ParseHex2(s[5..7]))
      case (Some(r), Some(g), Some(b)) => Some((r, g, b))
      case _ => None
  }

  lemma {:induction false} RgbRoundTrip(r: nat, g: nat, b: nat)
    requires r < 256 && g < 256 && b < 256
    ensures ParseRgb(Rgb(r, g, b)) == Some((r, g, b))
  {
    var s := Rgb(r, g, b);
    assert s[1..3] == Hex2(r) && s[3..5] == Hex2(g) && s[5..7] == Hex2(b);
    Hex2RoundTrip(r);
    Hex2RoundTrip(g);
    Hex2RoundTrip(b);
  }

  /** The k-th entry of the colour cube (k < 216): blue varies fastest, red slowest. */
  function CubeColor(k: nat): string
    requires k < 216
  {
    Rgb(Levels[k / 36], Levels[k / 6 % 6], Levels[k % 6])
  }

  /** The i-th grey (i from 1): every channel i * GrayStep. */
  function GrayColor(i: nat): string
    requires 1 <= i <= GrayCount
  {
    Rgb(i * GrayStep, i * GrayStep, i * GrayStep)
  }

  /** The whole table, entry by entry. */
  function PaletteEntry(index: nat): (c: string)
    requires index < 256
  {
    if index == 0 then Transparent
    else if index <= 216 then CubeColor(index - 1)
    else GrayColor(index - 216)
  }

  /** The table as one sequence. */
  function Table(): (t: seq<string>)
    ensures |t| == 256 && forall i :: 0 <= i < 256 ==> t[i] == PaletteEntry(i)
  {
    seq(256, i requires 0 <= i < 256 => PaletteEntry(i))
  }

  /** p holds the first |p| entries of the table. */
  predicate IsPrefix(p: seq<string>) {
    |p| <= 256 && p == Table()[..|p|]
  }

  lemma {:induction false} Extend(p: seq<string>, c: string)
    requires IsPrefix(p) && |p| < 256 && c == PaletteEntry(|p|)
    ensures IsPrefix(p + [c])
  {
    assert Table()[..|p| + 1] == Table()[..|p|] + [Table()[|p|]];
  }

  /** Where the loops over the levels put each cube colour. */
  lemma {:induction false} CubePosition(ri: nat, gi: nat, bi: nat)
    requires ri < 6 && gi < 6 && bi < 6
    ensures 1 <= 1 + 36 * ri + 6 * gi + bi <= 216
    ensures PaletteEntry(1 + 36 * ri + 6 * gi + bi) == Rgb(Levels[ri], Levels[gi], Levels[bi])
  {
    var k := 36 * ri + 6 * gi + bi;
    CubeDigits(ri, gi, bi);
    assert CubeColor(k) == Rgb(Levels[ri], Levels[gi], Levels[bi]);
  }

  lemma CubeDigits(ri: nat, gi: nat, bi: nat)
    requires ri < 6 && gi < 6 && bi < 6
    ensures (36 * ri + 6 * gi + bi) / 36 == ri
    ensures (36 * ri + 6 * gi + bi) / 6 % 6 == gi
    ensures (36 * ri + 6 * gi + bi) % 6 == bi
  {
  }

  /** The colour cube part of generate256Palette: one push per (red, green, blue) level triple. */
  method PushCube(p0: seq<string>) returns (p: seq<string>)
    requires IsPrefix(p0) && |p0| == 1
    ensures IsPrefix(p) && |p| == 217
  {
    p := p0;
    for ri := 0 to |Levels|
      invariant |p| == 1 + 36 * ri && IsPrefix(p)
    {
      for gi := 0 to |Levels|
        invariant |p| == 1 + 36 * ri + 6 * gi && IsPrefix(p)
      {
        for bi := 0 to |Levels|
          invariant |p| == 1 + 36 * ri + 6 * gi + bi && IsPrefix(p)
        {
          var hex := Rgb(Levels[ri], Levels[gi], Levels[bi]);
          CubePosition(ri, gi, bi);
          Extend(p, hex);
          p := p + [hex];
        }
      }
    }
  }

  /**
   * generate256Palette: pushes the transparent entry, then the cube, then as
   * many greys as are needed to reach 256, stepped by floor(255 / (needed + 1)).
   */
  method GeneratePalette() returns (p: seq<string>)
    ensures |p| == 256
    ensures forall i :: 0 <= i < 256 ==> p[i] == PaletteEntry(i)
  {
    p := [Transparent];
    assert p == Table()[..1];
    p := PushCube(p);
    var needed := 256 - |p|;
    var step := 255 / (needed + 1);
    assert needed == GrayCount && step == GrayStep;
    for i := 1 to needed + 1
      invariant |p| == 216 + i && IsPrefix(p)
    {
      var val := i * step;
      assert val == i * GrayStep <= 234;
      Extend(p, Rgb(val, val, val));
      p := p + [Rgb(val, val, val)];
    }
    assert p == Table();
  }

  /** getColor: the entry at index, or the transparent entry for any index outside the table. */
  function GetColor(index: int): (c: string)
    ensures 0 <= index < 256 ==> c == PaletteEntry(index)
    ensures !(0 <= index < 256) ==> c == Transparent
  {
    if 0 <= index < 256 then PaletteEntry(index) else PaletteEntry(0)
  }

  /** Each cube entry reads back to its three channel levels. */
  lemma {:induction false} CubeChannels(ri: nat, gi: nat, bi: nat)
    requires ri < 6 && gi < 6 && bi < 6
    ensures ParseRgb(PaletteEntry(1 + 36 * ri + 6 * gi + bi)) == Some((Levels[ri], Levels[gi], Levels[bi]))
  {
    CubePosition(ri, gi, bi);
    RgbRoundTrip(Levels[ri], Levels[gi], Levels[bi]);
  }

  /** Each grey entry reads back to three equal channels. */
  lemma {:induction false} GrayChannels(i: nat)
    requires 1 <= i <= GrayCount
    ensures ParseRgb(PaletteEntry(216 + i)) == Some((i * GrayStep, i * GrayStep, i * GrayStep))
  {
    RgbRoundTrip(i * GrayStep, i * GrayStep, i * GrayStep);
  }

  /** The greys climb strictly from 6 to 234, so they never reach white. */
  lemma GraysIncrease(i: nat, j: nat)
    requires 1 <= i < j <= GrayCount
    ensures i * GrayStep < j * GrayStep <= 234
  {
  }

  /**
   * Two greys coincide with cube colours: grey 17 is #666666 (cube entry 87) and
   * grey 34 is #CCCCCC (cube entry 173), so the table holds 254 distinct colours.
   */
  lemma {:induction false} PaletteDuplicates()
    ensures PaletteEntry(233) == PaletteEntry(87)
    ensures PaletteEntry(250) == PaletteEntry(173)
  {
    CubePosition(2, 2, 2);
    CubePosition(4, 4, 4);
    assert PaletteEntry(233) == GrayColor(17) == Rgb(102, 102, 102);
    assert PaletteEntry(250) == GrayColor(34) == Rgb(204, 204, 204);
  }
}
