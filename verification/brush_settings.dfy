/** The brush: the colour and size that new drawing operations are created with. */
module Brushes {
  import opened Graphics

  datatype BrushSettings = BrushSettings(color: Color, size: real)

  /** The brush a canvas starts with: black, two pixels. */
  const DefaultBrush: BrushSettings := BrushSettings(Black, 2.0)

  function SetColor(b: BrushSettings, c: Color): (r: BrushSettings)
    ensures r.color == c
    ensures r.size == b.size
  {
    b.(color := c)
  }

  function SetSize(b: BrushSettings, s: real): (r: BrushSettings)
    ensures r.size == s
    ensures r.color == b.color
  {
    b.(size := s)
  }

  /** Setting the colour then the size reaches any brush, whatever the start. */
  lemma SettersReachAnyBrush(b: BrushSettings, target: BrushSettings)
    ensures SetSize(SetColor(b, target.color), target.size) == target
  {
  }

  /** The two setters touch disjoint fields, so their order does not matter. */
  lemma SettersCommute(b: BrushSettings, c: Color, s: real)
    ensures SetSize(SetColor(b, c), s) == SetColor(SetSize(b, s), c)
  {
  }
}
