/** The standard paper sizes and their conversion from millimetres to screen pixels. */
module PaperSizes {

  datatype PaperSize = A3 | A4 | A5 | A6

  /** Screen resolution in dots per inch. */
  const DefaultDpi: real := 96.0

  /** Inches per millimetre, as the constant written in the program. */
  const MmToInches: real := 0.0393701

  function WidthMm(s: PaperSize): real
  {
    match s
    case A3 => 297.0
    case A4 => 210.0
    case A5 => 148.0
    case A6 => 105.0
  }

  function HeightMm(s: PaperSize): real
  {
    match s
    case A3 => 420.0
    case A4 => 297.0
    case A5 => 210.0
    case A6 => 148.0
  }

  /** The name shown in the user interface; also what toString returns. */
  function DisplayName(s: PaperSize): (name: string)
    ensures |name| == 2 && name[0] == 'A'
    ensures name[1] == match s case A3 => '3' case A4 => '4' case A5 => '5' case A6 => '6'
  {
    match s
    case A3 => "A3"
    case A4 => "A4"
    case A5 => "A5"
    case A6 => "A6"
  }

  /** A paper size prints as its display name. */
  function ToString(s: PaperSize): string
  {
    DisplayName(s)
  }

  /** Converts millimetres to pixels at the given resolution (exact arithmetic). */
  function MmToPixels(mm: real, dpi: real): (px: real)
    ensures mm > 0.0 && dpi > 0.0 ==> px > 0.0
    ensures mm == 0.0 || dpi == 0.0 ==> px == 0.0
  {
    mm * MmToInches * dpi
  }

  function WidthInPixels(s: PaperSize): (px: real)
    ensures px > 0.0
  {
    MmToPixels(WidthMm(s), DefaultDpi)
  }

  function HeightInPixels(s: PaperSize): (px: real)
    ensures px > 0.0
  {
    MmToPixels(HeightMm(s), DefaultDpi)
  }

  /** The position of a size in declaration order (Java's ordinal()). */
  function Ordinal(s: PaperSize): nat
  {
    match s
    case A3 => 0
    case A4 => 1
    case A5 => 2
    case A6 => 3
  }

  /** `a` is strictly larger than `b` in both dimensions. */
  predicate Larger(a: PaperSize, b: PaperSize)
  {
    WidthMm(a) > WidthMm(b) && HeightMm(a) > HeightMm(b)
  }

  /** Every size, in declaration order: largest first, each strictly larger than the next. */
  function AllSizes(): (sizes: seq<PaperSize>)
    ensures |sizes| == 4
    ensures forall s :: Ordinal(s) < |sizes| && sizes[Ordinal(s)] == s
    ensures forall i :: 0 <= i < |sizes| - 1 ==> Larger(sizes[i], sizes[i + 1])
  {
    [A3, A4, A5, A6]
  }

  /** Each size is half of the next larger one: its height equals that size's width. */
  lemma HalvingChain()
    ensures forall i :: 0 <= i < |AllSizes()| - 1 ==>
      HeightMm(AllSizes()[i + 1]) == WidthMm(AllSizes()[i])
  {
  }

  /** Every size is portrait. */
  lemma Portrait(s: PaperSize)
    ensures HeightMm(s) > WidthMm(s)
  {
  }

  /** Different sizes print differently. */
  lemma DisplayNameInjective(a: PaperSize, b: PaperSize)
    ensures ToString(a) == ToString(b) ==> a == b
  {
  }

  /** The conversion to pixels is strictly increasing in the millimetre length. */
  lemma MmToPixelsMonotonic(a: real, b: real, dpi: real)
    requires dpi > 0.0
    requires a < b
    ensures MmToPixels(a, dpi) < MmToPixels(b, dpi)
  {
    var k := MmToInches * dpi;
    assert k > 0.0;
    assert MmToPixels(b, dpi) - MmToPixels(a, dpi) == (b - a) * k;
  }

  /** Pixel dimensions keep the millimetre ordering of the sizes. */
  lemma PixelsPreserveOrder(a: PaperSize, b: PaperSize)
    requires Larger(a, b)
    ensures WidthInPixels(a) > WidthInPixels(b)
    ensures HeightInPixels(a) > HeightInPixels(b)
  {
    MmToPixelsMonotonic(WidthMm(b), WidthMm(a), DefaultDpi);
    MmToPixelsMonotonic(HeightMm(b), HeightMm(a), DefaultDpi);
  }

  /** A4 at 96 dpi: 210 * 0.0393701 * 96 = 793.701216 pixels wide, exactly. */
  lemma A4Pixels()
    ensures WidthInPixels(A4) == 793.701216
    ensures HeightInPixels(A4) == 1122.5202912
  {
  }
}
