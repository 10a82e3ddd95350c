/**
 * The frame quantiser `imageDataToAscii`: it draws a decoded frame onto a
 * canvas `width` pixels wide and as tall as keeps the image's aspect ratio,
 * reads the canvas back, scans the RGBA buffer row by row, maps the
 * unweighted mean of each pixel's red, green and blue bytes through the
 * glyph ramp, and ends every row, the last one included, with a line break.
 *
 * Decoding the PNG and resampling it onto the canvas are browser work and
 * are taken as given: a decoded image is its natural size together with the
 * buffer `getImageData` returns for each canvas size it is drawn on, which
 * always holds exactly four bytes per pixel.
 */
module Rasterizer {
  import opened Results
  import opened Glyphs

  newtype byte = x: int | 0 <= x < 256

  /** The canvas height for a decoded image: `Math.round(imageHeight * (width / imageWidth))`. */
  function CanvasHeight(imageWidth: nat, imageHeight: nat, width: nat): nat
    requires imageWidth > 0
  {
    (2 * imageHeight * width + imageWidth) / (2 * imageWidth)
  }

  /** The canvas height is imageHeight * width / imageWidth rounded to the nearest integer, halves upward. */
  lemma CanvasHeightRounds(imageWidth: nat, imageHeight: nat, width: nat)
    requires imageWidth > 0
    ensures var h := CanvasHeight(imageWidth, imageHeight, width);
            2 * imageWidth * h <= 2 * imageHeight * width + imageWidth < 2 * imageWidth * (h + 1)
  {
    var num, den := 2 * imageHeight * width + imageWidth, 2 * imageWidth;
    assert num == den * (num / den) + num % den;
  }

  /** An image already at the target width keeps its height. */
  lemma CanvasHeightAtTargetWidth(imageHeight: nat, width: nat)
    requires width > 0
    ensures CanvasHeight(width, imageHeight, width) == imageHeight
  {
    var h := CanvasHeight(width, imageHeight, width);
    CanvasHeightRounds(width, imageHeight, width);
    if h > imageHeight {
      MulMonotone(imageHeight + 1, h, 2 * width);
    } else if h < imageHeight {
      MulMonotone(h + 1, imageHeight, 2 * width);
    }
  }

  /** Multiplying by a natural number keeps the order. */
  lemma MulMonotone(a: nat, b: nat, c: nat)
    requires a <= b
    ensures a * c <= b * c
  {
    assert b * c == a * c + (b - a) * c;
  }

  /** The buffer shape `getImageData` guarantees for a width x height canvas. */
  predicate IsPixelBuffer(rgba: seq<byte>, width: nat, height: nat) {
    |rgba| == 4 * width * height
  }

  /** Where the four bytes of cell (x, y) start in the buffer. */
  function PixelIndex(width: nat, x: nat, y: nat): nat {
    (y * width + x) * 4
  }

  /** The four bytes of cell (x, y) lie inside the buffer. */
  lemma CellInBounds(width: nat, height: nat, x: nat, y: nat)
    requires x < width && y < height
    ensures PixelIndex(width, x, y) + 3 < 4 * width * height
  {
    var p := y * width;
    assert (y + 1) * width == p + width;
    MulMonotone(y + 1, height, width);
    assert 4 * width * height == 4 * (height * width);
  }

  /** The sum of the red, green and blue bytes of cell (x, y); its alpha byte is not read. */
  function ChannelSum(rgba: seq<byte>, width: nat, height: nat, x: nat, y: nat): (s: nat)
    requires IsPixelBuffer(rgba, width, height) && x < width && y < height
    ensures s <= 765
  {
    CellInBounds(width, height, x, y);
    var i := PixelIndex(width, x, y);
    rgba[i] as int + rgba[i + 1] as int + rgba[i + 2] as int
  }

  /** The brightness of cell (x, y): the plain mean of its red, green and blue bytes. */
  function CellBrightness(rgba: seq<byte>, width: nat, height: nat, x: nat, y: nat): (b: real)
    requires IsPixelBuffer(rgba, width, height) && x < width && y < height
    ensures InRange(b)
  {
    ChannelSum(rgba, width, height, x, y) as real / 3.0
  }

  /** The glyph the frame shows for cell (x, y). */
  function CellGlyph(rgba: seq<byte>, width: nat, height: nat, x: nat, y: nat, level: DetailLevel): char
    requires IsPixelBuffer(rgba, width, height) && x < width && y < height
  {
    GetAsciiChar(CellBrightness(rgba, width, height, x, y), level)
  }

  /** The glyphs of row y, left to right. */
  function RowGlyphs(rgba: seq<byte>, width: nat, height: nat, y: nat, level: DetailLevel): string
    requires IsPixelBuffer(rgba, width, height) && y < height
  {
    seq(width, x requires 0 <= x < width => CellGlyph(rgba, width, height, x, y, level))
  }

  /** The glyph rows of the whole canvas, top to bottom. */
  function GlyphRows(rgba: seq<byte>, width: nat, height: nat, level: DetailLevel): (rows: seq<string>)
    requires IsPixelBuffer(rgba, width, height)
  {
    seq(height, y requires 0 <= y < height => RowGlyphs(rgba, width, height, y, level))
  }

  /** Rows of text joined into one frame, each row followed by a line break. */
  function Layout(rows: seq<string>): string {
    if rows == [] then ""
    else Layout(rows[..|rows| - 1]) + rows[|rows| - 1] + "\n"
  }

  /** The frame `imageDataToAscii` produces for a pixel buffer. */
  function AsciiImage(rgba: seq<byte>, width: nat, height: nat, level: DetailLevel): string
    requires IsPixelBuffer(rgba, width, height)
  {
    TopRows(rgba, width, height, height, level)
  }

  /** The text of the first n rows of the frame, each followed by a line break. */
  function TopRows(rgba: seq<byte>, width: nat, height: nat, n: nat, level: DetailLevel): string
    requires IsPixelBuffer(rgba, width, height) && n <= height
  {
    if n == 0 then ""
    else TopRows(rgba, width, height, n - 1, level) + RowGlyphs(rgba, width, height, n - 1, level) + "\n"
  }

  /** The first n rows take n * (width + 1) characters. */
  lemma {:induction false} TopRowsLength(rgba: seq<byte>, width: nat, height: nat, n: nat, level: DetailLevel)
    requires IsPixelBuffer(rgba, width, height) && n <= height
    ensures |TopRows(rgba, width, height, n, level)| == n * (width + 1)
  {
    if n > 0 {
      TopRowsLength(rgba, width, height, n - 1, level);
      assert n * (width + 1) == (n - 1) * (width + 1) + width + 1;
    }
  }

  /** The first n rows of the frame are the layout of the first n glyph rows. */
  lemma {:induction false} TopRowsIsLayout(rgba: seq<byte>, width: nat, height: nat, n: nat, level: DetailLevel)
    requires IsPixelBuffer(rgba, width, height) && n <= height
    ensures TopRows(rgba, width, height, n, level) == Layout(GlyphRows(rgba, width, height, level)[..n])
  {
    if n > 0 {
      var rows := GlyphRows(rgba, width, height, level);
      TopRowsIsLayout(rgba, width, height, n - 1, level);
      assert rows[..n][..n - 1] == rows[..n - 1];
    }
  }

  /** The frame is the layout of its glyph rows. */
  lemma AsciiImageIsLayout(rgba: seq<byte>, width: nat, height: nat, level: DetailLevel)
    requires IsPixelBuffer(rgba, width, height)
    ensures AsciiImage(rgba, width, height, level) == Layout(GlyphRows(rgba, width, height, level))
  {
    TopRowsIsLayout(rgba, width, height, height, level);
    assert GlyphRows(rgba, width, height, level)[..height] == GlyphRows(rgba, width, height, level);
  }

  /** Every row has the same width. */
  ghost predicate Uniform(rows: seq<string>, width: nat) {
    forall y :: 0 <= y < |rows| ==> |rows[y]| == width
  }

  /** Where character x of row y sits in the frame text; x == width is the row's line break. */
  function Offset(width: nat, x: nat, y: nat): nat {
    y * (width + 1) + x
  }

  /** n rows of one width take n * (width + 1) characters. */
  lemma {:induction false} LayoutLength(rows: seq<string>, width: nat)
    requires Uniform(rows, width)
    ensures |Layout(rows)| == |rows| * (width + 1)
  {
    if rows != [] {
      var n := |rows|;
      LayoutLength(rows[..n - 1], width);
      assert n * (width + 1) == (n - 1) * (width + 1) + width + 1;
    }
  }

  /** Character x of row y is at Offset(width, x, y); position `width` of a row is its line break. */
  lemma {:induction false} LayoutAt(rows: seq<string>, width: nat, x: nat, y: nat)
    requires Uniform(rows, width)
    requires x <= width && y < |rows|
    ensures Offset(width, x, y) < |Layout(rows)|
    ensures Layout(rows)[Offset(width, x, y)] == if x == width then '\n' else rows[y][x]
  {
    var n := |rows|;
    var prefix := Layout(rows[..n - 1]);
    var tail := rows[n - 1] + "\n";
    var o := Offset(width, x, y);
    assert Layout(rows) == prefix + tail;
    if y < n - 1 {
      LayoutAt(rows[..n - 1], width, x, y);
      assert (prefix + tail)[o] == prefix[o];
    } else {
      LayoutLength(rows[..n - 1], width);
      assert o == |prefix| + x;
      assert (prefix + tail)[o] == tail[x];
    }
  }

  /** The whole frame: its length, its glyphs and its line breaks. */
  lemma AsciiImageShape(rgba: seq<byte>, width: nat, height: nat, level: DetailLevel)
    requires IsPixelBuffer(rgba, width, height)
    ensures var ascii := AsciiImage(rgba, width, height, level);
            && |ascii| == height * (width + 1)
            && (forall x, y :: 0 <= x < width && 0 <= y < height ==>
                  Offset(width, x, y) < |ascii| && ascii[Offset(width, x, y)] == CellGlyph(rgba, width, height, x, y, level))
            && (forall y :: 0 <= y < height ==>
                  Offset(width, width, y) < |ascii| && ascii[Offset(width, width, y)] == '\n')
  {
    var rows := GlyphRows(rgba, width, height, level);
    AsciiImageIsLayout(rgba, width, height, level);
    assert Uniform(rows, width);
    LayoutLength(rows, width);
    forall x, y | 0 <= x <= width && 0 <= y < height
      ensures Offset(width, x, y) < |Layout(rows)|
      ensures Layout(rows)[Offset(width, x, y)]
              == if x == width then '\n' else CellGlyph(rgba, width, height, x, y, level)
    {
      LayoutAt(rows, width, x, y);
    }
  }

  /** A cell's glyph reads only the red, green and blue bytes of its pixel. */
  lemma CellGlyphIgnoresAlpha(rgba: seq<byte>, other: seq<byte>, width: nat, height: nat, x: nat, y: nat, level: DetailLevel)
    requires IsPixelBuffer(rgba, width, height) && |other| == |rgba| && x < width && y < height
    requires forall i :: 0 <= i < |rgba| && i % 4 != 3 ==> rgba[i] == other[i]
    ensures CellGlyph(rgba, width, height, x, y, level) == CellGlyph(other, width, height, x, y, level)
  {
    CellInBounds(width, height, x, y);
    var k := y * width + x;
    var i := PixelIndex(width, x, y);
    assert i == 4 * k;
    assert rgba[i] == other[i] && rgba[i + 1] == other[i + 1] && rgba[i + 2] == other[i + 2];
    assert ChannelSum(rgba, width, height, x, y) == ChannelSum(other, width, height, x, y);
    assert CellBrightness(rgba, width, height, x, y) == CellBrightness(other, width, height, x, y);
  }

  /** The alpha byte of a pixel never affects the frame text. */
  lemma AlphaIgnored(rgba: seq<byte>, other: seq<byte>, width: nat, height: nat, level: DetailLevel)
    requires IsPixelBuffer(rgba, width, height) && |other| == |rgba|
    requires forall i :: 0 <= i < |rgba| && i % 4 != 3 ==> rgba[i] == other[i]
    ensures AsciiImage(rgba, width, height, level) == AsciiImage(other, width, height, level)
  {
    forall y | 0 <= y < height
      ensures RowGlyphs(rgba, width, height, y, level) == RowGlyphs(other, width, height, y, level)
    {
      forall x | 0 <= x < width
        ensures CellGlyph(rgba, width, height, x, y, level) == CellGlyph(other, width, height, x, y, level)
      {
        CellGlyphIgnoresAlpha(rgba, other, width, height, x, y, level);
      }
    }
    assert GlyphRows(rgba, width, height, level) == GlyphRows(other, width, height, level);
    AsciiImageIsLayout(rgba, width, height, level);
    AsciiImageIsLayout(other, width, height, level);
  }

  /**
   * The column loop of `imageDataToAscii` for row y: one glyph per pixel,
   * from the mean of its red, green and blue bytes.
   */
  method RowToAscii(rgba: seq<byte>, width: nat, height: nat, y: nat, level: DetailLevel)
    returns (row: string)
    requires IsPixelBuffer(rgba, width, height) && y < height
    ensures row == RowGlyphs(rgba, width, height, y, level)
  {
    ghost var glyphs := RowGlyphs(rgba, width, height, y, level);
    row := "";
    for x := 0 to width
      invariant row == glyphs[..x]
    {
      CellInBounds(width, height, x, y);
      var pixelIndex := PixelIndex(width, x, y);
      var r := rgba[pixelIndex];
      var g := rgba[pixelIndex + 1];
      var b := rgba[pixelIndex + 2];
      var brightness := (r as int + g as int + b as int) as real / 3.0;
      assert brightness == CellBrightness(rgba, width, height, x, y) by {
        assert r as int + g as int + b as int == ChannelSum(rgba, width, height, x, y);
      }
      var glyph := GetAsciiChar(brightness, level);
      assert glyph == CellGlyph(rgba, width, height, x, y, level);
      assert glyphs[x] == CellGlyph(rgba, width, height, x, y, level);
      assert glyphs[..x + 1] == glyphs[..x] + [glyph];
      row := row + [glyph];
    }
    assert glyphs[..width] == glyphs;
  }

  /**
   * The row loop of `imageDataToAscii` over the canvas buffer: row after row,
   * the row's glyphs followed by a line break.
   */
  method PixelsToAscii(rgba: seq<byte>, width: nat, height: nat, level: DetailLevel)
    returns (ascii: string)
    requires IsPixelBuffer(rgba, width, height)
    ensures ascii == AsciiImage(rgba, width, height, level)
  {
    ascii := "";
    for y := 0 to height
      invariant ascii == TopRows(rgba, width, height, y, level)
    {
      var row := RowToAscii(rgba, width, height, y, level);
      ascii := ascii + row + "\n";
    }
  }

  /**
   * A decoded PNG: its natural size, and the RGBA buffer the canvas holds
   * after `drawImage` has scaled it onto a canvas of the given width and height.
   */
  datatype Picture = Picture(imageWidth: nat, imageHeight: nat, draw: (nat, nat) -> seq<byte>)

  /** A decoded image has a positive size, and every canvas it is drawn on reads back four bytes per pixel. */
  ghost predicate IsDecoded(p: Picture) {
    p.imageWidth > 0 && p.imageHeight > 0 && forall w: nat, h: nat :: CanvasFits(p, w, h)
  }

  /** Drawing `p` on a w x h canvas reads back a buffer of that size. */
  predicate CanvasFits(p: Picture, w: nat, h: nat) {
    IsPixelBuffer(p.draw(w, h), w, h)
  }

  type Image = p: Picture | IsDecoded(p) witness Picture(1, 1, (w: nat, h: nat) => seq(4 * w * h, _ => 0 as byte))

  /** The height of the canvas an image is drawn on at a target width. */
  function FrameHeight(image: Image, width: nat): nat {
    CanvasHeight(image.imageWidth, image.imageHeight, width)
  }

  /** `getImageData` throws this DOMException for a canvas with no pixels. */
  datatype CanvasError = IndexSizeError

  /**
   * The canvas for `image` at `width` has pixels, so it can be read back:
   * the width is positive and the height does not round down to zero.
   */
  predicate Drawable(image: Image, width: nat) {
    width > 0 && 2 * image.imageHeight * width >= image.imageWidth
  }

  /** An image is drawable exactly when both canvas sizes are positive. */
  lemma DrawableHasPixels(image: Image, width: nat)
    ensures Drawable(image, width) <==> width > 0 && FrameHeight(image, width) > 0
  {
    CanvasHeightRounds(image.imageWidth, image.imageHeight, width);
  }

  /**
   * What `imageDataToAscii` settles to for a decoded image at a target width:
   * IndexSizeError when the canvas is empty, otherwise the text of the
   * resampled canvas.
   */
  function ImageText(image: Image, width: nat, level: DetailLevel): (r: Result<string, CanvasError>)
    ensures r.Ok? <==> Drawable(image, width)
  {
    if Drawable(image, width) then
      var height := FrameHeight(image, width);
      assert CanvasFits(image, width, height);
      Ok(AsciiImage(image.draw(width, height), width, height, level))
    else Err(IndexSizeError)
  }

  /** A converted image has `FrameHeight` rows of `width` glyphs, each followed by a line break. */
  lemma ImageTextLength(image: Image, width: nat, level: DetailLevel)
    requires Drawable(image, width)
    ensures |ImageText(image, width, level).value| == FrameHeight(image, width) * (width + 1)
  {
    var height := FrameHeight(image, width);
    assert CanvasFits(image, width, height);
    TopRowsLength(image.draw(width, height), width, height, height, level);
  }

  /**
   * `imageDataToAscii`: sizes the canvas to `width` by the rounded height,
   * draws the image on it, reads the pixels back and converts them.
   */
  method ImageDataToAscii(image: Image, width: nat, level: DetailLevel := DefaultLevel)
    returns (result: Result<string, CanvasError>)
    ensures result == ImageText(image, width, level)
  {
    var height := CanvasHeight(image.imageWidth, image.imageHeight, width);
    DrawableHasPixels(image, width);
    if width == 0 || height == 0 {
      return Err(IndexSizeError);
    }
    var pixelData := image.draw(width, height);
    assert CanvasFits(image, width, height);
    var ascii := PixelsToAscii(pixelData, width, height, level);
    return Ok(ascii);
  }
}
