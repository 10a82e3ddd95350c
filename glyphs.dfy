/**
 * The brightness-to-glyph mapper of the video processor: four fixed glyph
 * ramps, one per detail level, ordered from the sparsest glyph (a space) to
 * the densest, and the function that picks the glyph for a brightness.
 *
 * Brightness is a JavaScript number in the source. It is modelled as an
 * exact `real`, so `Math.floor((b / 255) * (len - 1))` is computed without
 * floating-point rounding.
 */
module Glyphs {

  /** The detail levels a conversion can be asked for. */
  datatype DetailLevel = Low | Medium | High | Ultra

  /** The level `getAsciiChar` uses when its caller gives none. */
  const DefaultLevel: DetailLevel := Medium

  /**
   * The glyph ramp bound to a detail level (the `asciiMaps` table). The
   * ramps are written in rows of ten glyphs and are the same lists, in the
   * same order, as the source's literal arrays.
   */
  function Ramp(level: DetailLevel): (ramp: seq<char>)
    ensures |ramp| >= 2
    ensures ramp[0] == ' '
    ensures ramp[|ramp| - 1] == if level == Ultra then '♦' else '@'
    ensures |ramp| == match level
                      case Low => 10
                      case Medium => 17
                      case High => 63
                      case Ultra => 94
  {
    match level
    case Low =>
      [' ', '.', ':', '-', '=', '+', '*', '#', '%', '@']
    case Medium =>
      [' ', '.', ':', ';', '!', '>', '<', '+', '=', '?']
      + ['7', '9', '$', '&', '%', 'B', '@']
    case High =>
      [' ', '.', '`', '^', '"', ',', ':', ';', 'I', 'l']
      + ['!', 'i', '>', '<', '~', '+', '_', '-', '?', ']']
      + ['}', '|', ')', '(', '1', 't', 'f', 'j', 'r', 'x']
      + ['n', 'u', 'v', 'c', 'z', 'X', 'Y', 'U', 'J', 'C']
      + ['L', 'Q', 'O', 'Z', 'm', 'w', 'q', 'p', 'd', 'b']
      + ['k', 'h', 'a', 'o', '*', '#', 'M', 'W', '&', '8']
      + ['%', 'B', '@']
    case Ultra =>
      [' ', '.', '`', '^', '"', ',', ':', ';', 'I', 'l']
      + ['!', 'i', '>', '<', '~', '+', '_', '-', '?', ']']
      + ['}', '|', ')', '(', '1', 't', 'f', 'j', 'r', 'x']
      + ['n', 'u', 'v', 'c', 'z', 'X', 'Y', 'U', 'J', 'C']
      + ['L', 'Q', 'O', 'Z', 'm', 'w', 'q', 'p', 'd', 'b']
      + ['k', 'h', 'a', 'o', '*', '#', 'M', 'W', '&', '8']
      + ['%', 'B', '@', '█', '▉', '▊', '▋', '▌', '▍', '▎']
      + ['▏', '▓', '▒', '░', '■', '□', '▪', '▫', '●', '○']
      + ['◆', '◇', '◼', '◻', '▲', '△', '▼', '▽', '◀', '▶']
      + ['♠', '♣', '♥', '♦']
  }

  /** The brightness range a pixel mean can take. */
  predicate InRange(brightness: real) {
    0.0 <= brightness <= 255.0
  }

  /** `asciiMap.length - 1`: the index of the last entry of the level's ramp. */
  function LastIndex(level: DetailLevel): (n: nat)
    ensures n == |Ramp(level)| - 1
  {
    match level
    case Low => 9
    case Medium => 16
    case High => 62
    case Ultra => 93
  }

  /**
   * `asciiMap.length - 1` for the level's ramp, as the real factor the
   * brightness fraction is scaled by.
   */
  function Span(level: DetailLevel): (span: real)
    ensures span == (|Ramp(level)| - 1) as real
  {
    match level
    case Low => 9.0
    case Medium => 16.0
    case High => 62.0
    case Ultra => 93.0
  }

  /**
   * The ramp index chosen for a brightness, `floor((b / 255) * (len - 1))`.
   * It never leaves the ramp, brightness 0 selects the first entry and
   * brightness 255 the last one.
   */
  function GlyphIndex(brightness: real, level: DetailLevel): (i: nat)
    requires InRange(brightness)
    ensures i < |Ramp(level)|
    ensures brightness == 0.0 ==> i == 0
    ensures brightness == 255.0 ==> i == |Ramp(level)| - 1
  {
    var scaled := brightness / 255.0;
    match level
    case Low => (scaled * 9.0).Floor
    case Medium => (scaled * 16.0).Floor
    case High => (scaled * 62.0).Floor
    case Ultra => (scaled * 93.0).Floor
  }

  /**
   * `getAsciiChar`: the glyph of the level's ramp for a brightness. The
   * result is always an entry of the ramp; black gives a space and white the
   * densest glyph of the ramp.
   */
  function GetAsciiChar(brightness: real, level: DetailLevel := DefaultLevel): (c: char)
    requires InRange(brightness)
    ensures c in Ramp(level)
    ensures brightness == 0.0 ==> c == ' '
    ensures brightness == 255.0 ==> c == if level == Ultra then '♦' else '@'
  {
    Ramp(level)[GlyphIndex(brightness, level)]
  }

  /** GlyphIndex is the floor of the brightness fraction scaled by the span. */
  lemma GlyphIndexIsFloor(brightness: real, level: DetailLevel)
    requires InRange(brightness)
    ensures GlyphIndex(brightness, level) == ((brightness / 255.0) * Span(level)).Floor
  {
  }

  /** A brighter pixel never selects an earlier entry of the ramp. */
  lemma GlyphIndexMonotone(b1: real, b2: real, level: DetailLevel)
    requires InRange(b1) && InRange(b2) && b1 <= b2
    ensures GlyphIndex(b1, level) <= GlyphIndex(b2, level)
  {
    var x1, x2 := (b1 / 255.0) * Span(level), (b2 / 255.0) * Span(level);
    assert x1 <= x2;
    assert x1.Floor as real <= x1 <= x2 < x2.Floor as real + 1.0;
  }

  /**
   * For the mean of three channels, `b = s / 3` with integer channel sum s,
   * the ramp index is the integer quotient `s * (len - 1) / 765`.
   */
  lemma GlyphIndexOfChannelSum(s: int, level: DetailLevel)
    requires 0 <= s <= 765
    ensures InRange(s as real / 3.0)
    ensures GlyphIndex(s as real / 3.0, level) == s * LastIndex(level) / 765
  {
    var p := s * LastIndex(level);
    var q := p / 765;
    var r := p % 765;
    assert p == 765 * q + r && 0 <= r < 765;
    var x := (s as real / 3.0 / 255.0) * Span(level);
    assert x == p as real / 765.0;
    assert p as real == 765.0 * q as real + r as real;
    assert x == q as real + r as real / 765.0;
    assert q as real <= x < q as real + 1.0;
  }

  /** The glyph for the mean of three channels with integer sum s is ramp entry `s * (len - 1) / 765`. */
  lemma GetAsciiCharOfChannelSum(s: int, level: DetailLevel)
    requires 0 <= s <= 765
    ensures InRange(s as real / 3.0)
    ensures s * LastIndex(level) / 765 < |Ramp(level)|
    ensures GetAsciiChar(s as real / 3.0, level) == Ramp(level)[s * LastIndex(level) / 765]
  {
    GlyphIndexOfChannelSum(s, level);
  }

  /** Brightness 127 on the low ramp lands on index 4, the glyph '='. */
  lemma LowRampMidGrey()
    ensures GlyphIndex(127.0, Low) == 4
    ensures GetAsciiChar(127.0, Low) == '='
  {
    assert (127.0 / 255.0) * 9.0 == 1143.0 / 255.0;
    assert 4.0 <= 1143.0 / 255.0 < 5.0;
  }
}
