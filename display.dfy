/**
 * The glyph rasteriser of src/devices/display.c: a 800-wide row-major buffer
 * of 16-bit pixels, a 5x130 '0'/'1' font holding 26 letters, and the nested
 * loops that scale a bitmap cell into a block of pixels.
 *
 * The index formula is kept exactly: drawPixel(x, y, ...) writes
 * ((x*scale) + r)*800 + (y*scale) + c, so its first coordinate selects the
 * buffer row, and drawBitmap passes the bitmap row as that first coordinate.
 * No function of the source checks a bound; the `requires` clauses below are
 * the reads and writes it makes.
 */
module PmxDisplay {

  const ScreenWidth: int := 800
  const ScreenHeight: int := 600
  const PixelCount: int := ScreenWidth * ScreenHeight

  /** A pixel of the buffer (Uint16). */
  type Uint16 = x: int | 0 <= x < 0x1_0000

  /** A colour argument (Uint32). */
  type Uint32 = x: int | 0 <= x < 0x1_0000_0000

  /** Storing a Uint32 colour into a Uint16 pixel keeps its low 16 bits. */
  function ToUint16(v: int): (p: Uint16)
    ensures 0 <= v < 0x1_0000 ==> p == v
  {
    v % 0x1_0000
  }

  /** The buffer index drawPixel writes for block row r and block column c. */
  function PixelIndex(x: int, y: int, scale: int, r: int, c: int): int
  {
    ((x * scale) + r) * ScreenWidth + (y * scale) + c
  }

  // ---------------------------------------------------------------------
  // drawPixel

  /**
   * Index k is written by the first `rows` full rows of drawPixel's loops and
   * the first `cols` columns of the next row.
   */
  ghost predicate InBlockPart(k: int, x: int, y: int, scale: int, rows: int, cols: int)
  {
    exists r, c :: 0 <= r && 0 <= c < scale && (r < rows || (r == rows && c < cols))
                   && k == PixelIndex(x, y, scale, r, c)
  }

  /** Index k is one of the scale*scale indices drawPixel(x, y, scale, _) writes. */
  ghost predicate InBlock(k: int, x: int, y: int, scale: int)
  {
    InBlockPart(k, x, y, scale, scale, 0)
  }

  /**
   * Every index drawPixel writes lies in a buffer of `len` pixels.  The
   * indices grow with r and c, so the first and the last one decide.
   */
  predicate BlockFits(len: int, x: int, y: int, scale: int)
  {
    scale <= 0 || (0 <= PixelIndex(x, y, scale, 0, 0) && PixelIndex(x, y, scale, scale - 1, scale - 1) < len)
  }

  /** The buffer after drawPixel: the block gets the colour, every other pixel is kept. */
  ghost function PaintPixel(p: seq<Uint16>, x: int, y: int, scale: int, color: Uint32): (q: seq<Uint16>)
    ensures |q| == |p|
  {
    seq(|p|, k requires 0 <= k < |p| => if InBlock(k, x, y, scale) then ToUint16(color) else p[k])
  }

  /** Each index of the block lies between the first and the last one. */
  lemma BlockBounds(x: int, y: int, scale: int, r: int, c: int)
    requires 0 <= r < scale && 0 <= c < scale
    ensures PixelIndex(x, y, scale, 0, 0) <= PixelIndex(x, y, scale, r, c)
    ensures PixelIndex(x, y, scale, r, c) <= PixelIndex(x, y, scale, scale - 1, scale - 1)
  {
    var base := PixelIndex(x, y, scale, 0, 0);
    assert PixelIndex(x, y, scale, r, c) == base + r * ScreenWidth + c;
    assert PixelIndex(x, y, scale, scale - 1, scale - 1) == base + (scale - 1) * ScreenWidth + scale - 1;
  }

  /**
   * While scale is at most the screen width, the block's indices are pairwise
   * distinct: drawPixel writes exactly scale*scale pixels.
   */
  lemma BlockInjective(x: int, y: int, scale: int, r1: int, c1: int, r2: int, c2: int)
    requires scale <= ScreenWidth
    requires 0 <= r1 < scale && 0 <= c1 < scale && 0 <= r2 < scale && 0 <= c2 < scale
    requires PixelIndex(x, y, scale, r1, c1) == PixelIndex(x, y, scale, r2, c2)
    ensures r1 == r2 && c1 == c2
  {
    var base := PixelIndex(x, y, scale, 0, 0);
    assert PixelIndex(x, y, scale, r1, c1) == base + r1 * ScreenWidth + c1;
    assert PixelIndex(x, y, scale, r2, c2) == base + r2 * ScreenWidth + c2;
  }

  // ---------------------------------------------------------------------
  // drawBitmap

  /** Cell (row, col) of the bitmap exists and is '1'. */
  ghost predicate Lit(bitmap: seq<string>, row: int, col: int)
  {
    0 <= row < |bitmap| && 0 <= col < |bitmap[row]| && bitmap[row][col] == '1'
  }

  /**
   * Index k is written by drawBitmap(i, j, index, width, bitmap, ...) for
   * cell (row, col): the cell's pixel is (row + j, (col + i) - width*index).
   */
  ghost predicate InCell(k: int, i: int, j: int, index: int, width: int, bitmap: seq<string>,
                         scale: int, row: int, col: int)
  {
    Lit(bitmap, row, col) && InBlock(k, row + j, (col + i) - width * index, scale)
  }

  /**
   * Index k is written by the first `rows` full rows of drawBitmap's loops and
   * the cells of the next row left of column `col`.
   */
  ghost predicate InGlyphPart(k: int, i: int, j: int, index: int, width: int, bitmap: seq<string>,
                              scale: int, rows: int, col: int)
  {
    exists row, c :: 0 <= row && width * index <= c < width * (index + 1)
                     && (row < rows || (row == rows && c < col))
                     && InCell(k, i, j, index, width, bitmap, scale, row, c)
  }

  /** Index k is written by drawBitmap over `rows` rows. */
  ghost predicate InGlyph(k: int, i: int, j: int, index: int, width: int, bitmap: seq<string>,
                          scale: int, rows: int)
  {
    InGlyphPart(k, i, j, index, width, bitmap, scale, rows, width * index)
  }

  /** Every cell drawBitmap reads exists: rows 0..rows-1, columns width*index..width*(index+1)-1. */
  predicate Readable(bitmap: seq<string>, rows: int, index: int, width: int)
  {
    rows <= 0 || width * (index + 1) <= width * index
    || (rows <= |bitmap| && 0 <= width * index
        && forall row :: 0 <= row < rows ==> width * (index + 1) <= |bitmap[row]|)
  }

  /** Every block drawBitmap paints lies in a buffer of `len` pixels. */
  ghost predicate GlyphFits(len: int, i: int, j: int, index: int, width: int, bitmap: seq<string>,
                            rows: int, scale: int)
  {
    forall row, c :: 0 <= row < rows && width * index <= c < width * (index + 1) && Lit(bitmap, row, c) ==>
      BlockFits(len, row + j, (c + i) - width * index, scale)
  }

  /** The buffer after drawBitmap: the glyph's blocks get the colour, every other pixel is kept. */
  ghost function PaintBitmap(p: seq<Uint16>, i: int, j: int, index: int, width: int, bitmap: seq<string>,
                             rows: int, scale: int, color: Uint32): (q: seq<Uint16>)
    ensures |q| == |p|
  {
    seq(|p|, k requires 0 <= k < |p| =>
      if InGlyph(k, i, j, index, width, bitmap, scale, rows) then ToUint16(color) else p[k])
  }

  // ---------------------------------------------------------------------
  // The font and the colour table

  /** The rows of the `alphabet` bitmap: 26 glyphs of 5 columns, A to Z. */
  const Alphabet: seq<string> := [
    "0111011110011101111011111111110111110001111111111110001100001101111001011101111001110111101111111111100011000110001100011000111111",
    "1000110001100011000110000100001000010001001000001010010100001010110101100011000110001100011000000100100011000110001010100101000001",
    "1111111110100001000111110111101001111111001000001011100100001000110101100011111010101111101111100100100011000110001001000010001110",
    "1000110001100011000110000100001000110001001000001010010100001000110101100011000010010100010000100100100010101010101010100010010000",
    "1000111110011101111011111100000111110001111111110010001111111000110011011101000001101100011111100100111110010011011100010010011111"]

  /** alphabet.height and alphabet.width. */
  const AlphabetHeight: int := 5
  const AlphabetWidth: int := 130

  /** The width drawChar passes for one glyph. */
  const GlyphWidth: int := 5

  /** drawString's step between glyph origins. */
  const Advance: int := 6

  /** getAlphabetIndex: the letter's distance from 'A', with no range check. */
  function AlphabetIndex(letter: char): (index: int)
    ensures 'A' <= letter <= 'Z' ==> 0 <= index < 26
    ensures letter as int == 'A' as int + index
  {
    letter as int - 'A' as int
  }

  datatype ColorMapping = ColorMapping(color: string, hex: Uint32)

  /** colors_map: COLORS (7) named 12-bit RGB colours. */
  const ColorsMap: seq<ColorMapping> := [
    ColorMapping("WHITE", 0xfff),
    ColorMapping("BLACK", 0x000),
    ColorMapping("RED", 0xf00),
    ColorMapping("GREEN", 0x0f0),
    ColorMapping("BLUE", 0x00f),
    ColorMapping("YELLOW", 0xff0),
    ColorMapping("MAGENTA", 0xf0f)]

  // ---------------------------------------------------------------------
  // drawString

  /** Letter `letter` drawn by drawChar at (x, y) is readable and fits a buffer of `len` pixels. */
  ghost predicate CharFits(len: int, letter: char, x: int, y: int, scale: int)
  {
    && 0 <= AlphabetIndex(letter) < 26
    && GlyphFits(len, x, y, AlphabetIndex(letter), GlyphWidth, Alphabet, AlphabetHeight, scale)
  }

  /** Every letter drawString draws is readable and fits. */
  ghost predicate StringFits(len: int, s: string, x: int, y: int, scale: int)
  {
    forall n :: 0 <= n < |s| ==> CharFits(len, s[n], x + Advance * n, y, scale)
  }

  /** The buffer after drawChar. */
  ghost function PaintChar(p: seq<Uint16>, index: int, x: int, y: int, scale: int, color: Uint32): (q: seq<Uint16>)
    ensures |q| == |p|
  {
    PaintBitmap(p, x, y, index, GlyphWidth, Alphabet, AlphabetHeight, scale, color)
  }

  /** The buffer after drawString: one glyph per letter, the origin moving 6 columns each time. */
  ghost function PaintString(p: seq<Uint16>, s: string, x: int, y: int, scale: int, color: Uint32): (q: seq<Uint16>)
    ensures |q| == |p|
    decreases |s|
  {
    if |s| == 0 then p
    else PaintString(PaintChar(p, AlphabetIndex(s[0]), x, y, scale, color), s[1..], x + Advance, y, scale, color)
  }

  /** Index k is painted by letter n of drawString(s, x, y, scale, _), drawn at column x + 6n. */
  ghost predicate LetterCovers(k: int, s: string, n: int, x: int, y: int, scale: int)
    requires 0 <= n < |s|
  {
    InGlyph(k, x + Advance * n, y, AlphabetIndex(s[n]), GlyphWidth, Alphabet, scale, AlphabetHeight)
  }

  /** Index k is painted by some letter of drawString(s, x, y, scale, _). */
  ghost predicate InString(k: int, s: string, x: int, y: int, scale: int)
  {
    exists n :: 0 <= n < |s| && LetterCovers(k, s, n, x, y, scale)
  }

  // ---------------------------------------------------------------------
  // How each loop step grows the painted region

  /** One more column of drawPixel's inner loop adds exactly index PixelIndex(x, y, scale, r, c). */
  lemma BlockPartStep(k: int, x: int, y: int, scale: int, r: int, c: int)
    requires 0 <= r && 0 <= c < scale
    ensures InBlockPart(k, x, y, scale, r, c + 1)
            <==> InBlockPart(k, x, y, scale, r, c) || k == PixelIndex(x, y, scale, r, c)
  {
    if k == PixelIndex(x, y, scale, r, c) {
      assert InBlockPart(k, x, y, scale, r, c + 1);
    }
    if InBlockPart(k, x, y, scale, r, c + 1) {
      var r', c' :| 0 <= r' && 0 <= c' < scale && (r' < r || (r' == r && c' < c + 1))
                     && k == PixelIndex(x, y, scale, r', c');
      if r' < r || c' < c {
        assert InBlockPart(k, x, y, scale, r, c);
      }
    }
  }

  /** A finished row of drawPixel's inner loop is the start of the next row. */
  lemma BlockPartRow(k: int, x: int, y: int, scale: int, r: int)
    requires 0 <= r
    ensures InBlockPart(k, x, y, scale, r, scale) <==> InBlockPart(k, x, y, scale, r + 1, 0)
  {
  }

  /** One more cell of drawBitmap's inner loop adds that cell's block when it is lit. */
  lemma GlyphPartStep(k: int, i: int, j: int, index: int, width: int, bitmap: seq<string>,
                      scale: int, row: int, col: int)
    requires 0 <= row && width * index <= col < width * (index + 1)
    ensures InGlyphPart(k, i, j, index, width, bitmap, scale, row, col + 1)
            <==> InGlyphPart(k, i, j, index, width, bitmap, scale, row, col)
                 || InCell(k, i, j, index, width, bitmap, scale, row, col)
  {
    if InCell(k, i, j, index, width, bitmap, scale, row, col) {
      assert InGlyphPart(k, i, j, index, width, bitmap, scale, row, col + 1);
    }
    if InGlyphPart(k, i, j, index, width, bitmap, scale, row, col + 1) {
      var row', c' :| 0 <= row' && width * index <= c' < width * (index + 1)
                      && (row' < row || (row' == row && c' < col + 1))
                      && InCell(k, i, j, index, width, bitmap, scale, row', c');
      if row' < row || c' < col {
        assert InGlyphPart(k, i, j, index, width, bitmap, scale, row, col);
      }
    }
  }

  /** A finished row of drawBitmap's inner loop is the start of the next row. */
  lemma GlyphPartRow(k: int, i: int, j: int, index: int, width: int, bitmap: seq<string>,
                     scale: int, row: int, end: int)
    requires 0 <= row
    requires end == if width * (index + 1) < width * index then width * index else width * (index + 1)
    ensures InGlyphPart(k, i, j, index, width, bitmap, scale, row, end)
            <==> InGlyphPart(k, i, j, index, width, bitmap, scale, row + 1, width * index)
  {
  }

  // ---------------------------------------------------------------------
  // The display

  /** The framebuffer (pmx_display): its dimensions and its pixels. */
  class Display {
    var width: int
    var height: int
    const pixels: array<Uint16>

    /** The buffer initDisplay allocates: SCREEN_WIDTH * SCREEN_HEIGHT pixels. */
    predicate Valid()
      reads this
    {
      width == ScreenWidth && height == ScreenHeight && pixels.Length == PixelCount
    }

    /** drawPixel: fills the scale x scale block of (x, y) with the colour's low 16 bits. */
    method DrawPixel(x: int, y: int, scale: int, color: Uint32)
      requires BlockFits(pixels.Length, x, y, scale)
      modifies pixels
      ensures pixels[..] == PaintPixel(old(pixels[..]), x, y, scale, color)
    {
      var i := 1;
      while i < scale + 1
        invariant 1 <= i && (scale < 1 || i <= scale + 1)
        invariant forall k :: 0 <= k < pixels.Length ==>
          pixels[k] == if InBlockPart(k, x, y, scale, i - 1, 0) then ToUint16(color) else old(pixels[k])
      {
        var j := 0;
        while j < scale
          invariant 0 <= j <= scale
          invariant forall k :: 0 <= k < pixels.Length ==>
            pixels[k] == if InBlockPart(k, x, y, scale, i - 1, j) then ToUint16(color) else old(pixels[k])
        {
          var x1 := ((x * scale) + (i - 1)) * ScreenWidth;
          var y1 := (y * scale) + j;
          var c1 := x1 + y1;
          assert c1 == PixelIndex(x, y, scale, i - 1, j);
          BlockBounds(x, y, scale, i - 1, j);
          pixels[c1] := ToUint16(color);
          forall k | 0 <= k < pixels.Length
            ensures pixels[k] == if InBlockPart(k, x, y, scale, i - 1, j + 1) then ToUint16(color) else old(pixels[k])
          {
            BlockPartStep(k, x, y, scale, i - 1, j);
          }
          j := j + 1;
        }
        forall k | 0 <= k < pixels.Length
          ensures pixels[k] == if InBlockPart(k, x, y, scale, i, 0) then ToUint16(color) else old(pixels[k])
        {
          BlockPartRow(k, x, y, scale, i - 1);
        }
        i := i + 1;
      }
      forall k | 0 <= k < pixels.Length
        ensures pixels[k] == PaintPixel(old(pixels[..]), x, y, scale, color)[k]
      {
        if scale < 1 {
          assert !InBlock(k, x, y, scale) && !InBlockPart(k, x, y, scale, i - 1, 0);
        }
      }
    }

    /**
     * drawBitmap: paints the block of every '1' cell in columns
     * width*index .. width*(index+1)-1 of the first `rows` rows; `cols` is unused.
     */
    method DrawBitmap(i: int, j: int, index: int, width: int, bitmap: seq<string>,
                      rows: int, cols: int, scale: int, color: Uint32)
      requires Readable(bitmap, rows, index, width)
      requires GlyphFits(pixels.Length, i, j, index, width, bitmap, rows, scale)
      modifies pixels
      ensures pixels[..] == PaintBitmap(old(pixels[..]), i, j, index, width, bitmap, rows, scale, color)
    {
      var lo := width * index;
      var hi := width * (index + 1);
      var end := if hi < lo then lo else hi;
      var y := 0;
      while y < rows
        invariant 0 <= y && (y == 0 || y <= rows)
        invariant forall k :: 0 <= k < pixels.Length ==>
          pixels[k] == if InGlyphPart(k, i, j, index, width, bitmap, scale, y, lo) then ToUint16(color) else old(pixels[k])
      {
        var x := lo;
        while x < hi
          invariant lo <= x <= end
          invariant forall k :: 0 <= k < pixels.Length ==>
            pixels[k] == if InGlyphPart(k, i, j, index, width, bitmap, scale, y, x) then ToUint16(color) else old(pixels[k])
        {
          ghost var before := pixels[..];
          if bitmap[y][x] == '1' {
            var newX := y + j;
            var newY := (x + i) - (width * index);
            assert Lit(bitmap, y, x);
            DrawPixel(newX, newY, scale, color);
          }
          forall k | 0 <= k < pixels.Length
            ensures pixels[k] == if InGlyphPart(k, i, j, index, width, bitmap, scale, y, x + 1) then ToUint16(color) else old(pixels[k])
          {
            GlyphPartStep(k, i, j, index, width, bitmap, scale, y, x);
          }
          x := x + 1;
        }
        forall k | 0 <= k < pixels.Length
          ensures pixels[k] == if InGlyphPart(k, i, j, index, width, bitmap, scale, y + 1, lo) then ToUint16(color) else old(pixels[k])
        {
          GlyphPartRow(k, i, j, index, width, bitmap, scale, y, end);
        }
        y := y + 1;
      }
      forall k | 0 <= k < pixels.Length
        ensures pixels[k] == PaintBitmap(old(pixels[..]), i, j, index, width, bitmap, rows, scale, color)[k]
      {
        if rows < 0 {
          assert !InGlyph(k, i, j, index, width, bitmap, scale, rows) && !InGlyphPart(k, i, j, index, width, bitmap, scale, y, lo);
        }
      }
    }

    /** drawChar: draws glyph `index` of the font with its origin at (x, y). */
    method DrawChar(index: int, x: int, y: int, scale: int, color: Uint32)
      requires 0 <= index < 26
      requires GlyphFits(pixels.Length, x, y, index, GlyphWidth, Alphabet, AlphabetHeight, scale)
      modifies pixels
      ensures pixels[..] == PaintChar(old(pixels[..]), index, x, y, scale, color)
    {
      AlphabetReadable(index);
      DrawBitmap(x, y, index, GlyphWidth, Alphabet, AlphabetHeight, AlphabetWidth, scale, color);
    }

    /** drawString: draws each letter, moving the origin 6 columns after each one. */
    method DrawString(s: string, x: int, y: int, scale: int, color: Uint32)
      requires StringFits(pixels.Length, s, x, y, scale)
      modifies pixels
      ensures pixels[..] == PaintString(old(pixels[..]), s, x, y, scale, color)
    {
      var cx := x;
      var i := 0;
      while i < |s|
        invariant 0 <= i <= |s|
        invariant cx == x + Advance * i
        invariant PaintString(old(pixels[..]), s, x, y, scale, color)
                  == PaintString(pixels[..], s[i..], cx, y, scale, color)
      {
        var index := AlphabetIndex(s[i]);
        assert CharFits(pixels.Length, s[i], x + Advance * i, y, scale);
        ghost var before := pixels[..];
        DrawChar(index, cx, y, scale, color);
        assert s[i..][1..] == s[i + 1..];
        cx := cx + Advance;
        i := i + 1;
      }
    }

    /**
     * initDisplay: the dimensions are fixed at 800x600 whatever w and h are,
     * every pixel takes the background's low 16 bits, and "START" is drawn in
     * red at the origin with scale 4.
     */
    constructor InitDisplay(w: int, h: int, bg: Uint32)
      ensures Valid() && fresh(pixels)
      ensures pixels[..] == PaintString(Filled(bg), "START", 0, 0, 4, ColorsMap[2].hex)
    {
      width := ScreenWidth;
      height := ScreenHeight;
      pixels := new Uint16[PixelCount];
      new;
      var i := 0;
      while i < PixelCount
        modifies pixels
        invariant 0 <= i <= PixelCount
        invariant forall k :: 0 <= k < i ==> pixels[k] == ToUint16(bg)
      {
        pixels[i] := ToUint16(bg);
        i := i + 1;
      }
      assert pixels[..] == Filled(bg);
      StartOnScreen();
      DrawString("START", 0, 0, 4, ColorsMap[2].hex);
    }
  }

  /** The buffer after initDisplay's fill loop. */
  function Filled(bg: Uint32): (p: seq<Uint16>)
    ensures |p| == PixelCount
    ensures forall k :: 0 <= k < |p| ==> p[k] == ToUint16(bg)
  {
    seq(PixelCount, _ => ToUint16(bg))
  }

  // ---------------------------------------------------------------------
  // Properties

  /** The font holds 5 rows of 130 cells: exactly the 26 glyphs of width 5. */
  lemma AlphabetShape()
    ensures |Alphabet| == AlphabetHeight
    ensures forall row :: 0 <= row < |Alphabet| ==> |Alphabet[row]| == AlphabetWidth == 26 * GlyphWidth
  {
  }

  /** drawChar reads inside the font exactly when the index names a letter A..Z. */
  lemma AlphabetReadable(index: int)
    ensures Readable(Alphabet, AlphabetHeight, index, GlyphWidth) <==> 0 <= index < 26
  {
    AlphabetShape();
    var first := Alphabet[0];
    if 0 <= index < 26 {
      assert forall row :: 0 <= row < AlphabetHeight ==> GlyphWidth * (index + 1) <= |Alphabet[row]|;
      assert Readable(Alphabet, AlphabetHeight, index, GlyphWidth);
    } else {
      assert GlyphWidth * (index + 1) > GlyphWidth * index;
      assert Readable(Alphabet, AlphabetHeight, index, GlyphWidth) ==> GlyphWidth * (index + 1) <= |first|;
      assert !Readable(Alphabet, AlphabetHeight, index, GlyphWidth);
    }
  }

  /** Scaling by a non-negative factor keeps the order. */
  lemma ScaleMonotonic(a: int, b: int, scale: int)
    requires a <= b && 0 <= scale
    ensures a * scale <= b * scale
  {
    assert b * scale - a * scale == (b - a) * scale;
  }

  /** A block whose cell lies on the 800x600 screen, scaled, fits the buffer. */
  lemma BlockOnScreen(row: int, col: int, scale: int)
    requires 0 <= row && 0 <= col && 0 < scale
    requires (row + 1) * scale <= ScreenHeight && (col + 1) * scale <= ScreenWidth
    ensures BlockFits(PixelCount, row, col, scale)
  {
    var rs := row * scale;
    var cs := col * scale;
    ScaleMonotonic(0, row, scale);
    ScaleMonotonic(0, col, scale);
    assert (row + 1) * scale == rs + scale;
    assert (col + 1) * scale == cs + scale;
    assert PixelIndex(row, col, scale, 0, 0) == rs * ScreenWidth + cs;
    assert PixelIndex(row, col, scale, scale - 1, scale - 1) == (rs + scale - 1) * ScreenWidth + cs + scale - 1;
  }

  /** A letter whose scaled 5x5 glyph lies on the screen fits the buffer. */
  lemma CharOnScreen(letter: char, x: int, y: int, scale: int)
    requires 'A' <= letter <= 'Z'
    requires 0 <= x && 0 <= y && 0 < scale
    requires (y + AlphabetHeight) * scale <= ScreenHeight && (x + GlyphWidth) * scale <= ScreenWidth
    ensures CharFits(PixelCount, letter, x, y, scale)
  {
    var index := AlphabetIndex(letter);
    forall row, c | 0 <= row < AlphabetHeight && GlyphWidth * index <= c < GlyphWidth * (index + 1)
                    && Lit(Alphabet, row, c)
      ensures BlockFits(PixelCount, row + y, (c + x) - GlyphWidth * index, scale)
    {
      var col := (c + x) - GlyphWidth * index;
      assert x <= col < x + GlyphWidth;
      ScaleMonotonic(row + y + 1, y + AlphabetHeight, scale);
      ScaleMonotonic(col + 1, x + GlyphWidth, scale);
      BlockOnScreen(row + y, col, scale);
    }
  }

  /** A string of capitals whose scaled glyphs all lie on the screen fits the buffer. */
  lemma StringOnScreen(s: string, x: int, y: int, scale: int)
    requires forall n :: 0 <= n < |s| ==> 'A' <= s[n] <= 'Z'
    requires 0 <= x && 0 <= y && 0 < scale
    requires (y + AlphabetHeight) * scale <= ScreenHeight
    requires (x + Advance * |s|) * scale <= ScreenWidth
    ensures StringFits(PixelCount, s, x, y, scale)
  {
    forall n | 0 <= n < |s|
      ensures CharFits(PixelCount, s[n], x + Advance * n, y, scale)
    {
      ScaleMonotonic(x + Advance * n + GlyphWidth, x + Advance * |s|, scale);
      CharOnScreen(s[n], x + Advance * n, y, scale);
    }
  }

  /** The banner initDisplay draws fits the buffer. */
  lemma StartOnScreen()
    ensures StringFits(PixelCount, "START", 0, 0, 4)
  {
    StringOnScreen("START", 0, 0, 4);
  }

  /**
   * drawPixel's block decoded: with 0 < scale <= 800, index k is painted
   * exactly when its offset from the block's first index has fewer than
   * `scale` whole rows and a column below `scale`.
   */
  lemma InBlockDecoded(k: int, x: int, y: int, scale: int)
    requires 0 < scale <= ScreenWidth
    ensures InBlock(k, x, y, scale)
            <==> (var d := k - PixelIndex(x, y, scale, 0, 0);
                  0 <= d && d / ScreenWidth < scale && d % ScreenWidth < scale)
  {
    var base := PixelIndex(x, y, scale, 0, 0);
    var d := k - base;
    if InBlock(k, x, y, scale) {
      var r, c :| 0 <= r && 0 <= c < scale && (r < scale || (r == scale && c < 0))
                  && k == PixelIndex(x, y, scale, r, c);
      assert d == r * ScreenWidth + c;
      assert d / ScreenWidth == r && d % ScreenWidth == c;
    }
    if 0 <= d && d / ScreenWidth < scale && d % ScreenWidth < scale {
      var r, c := d / ScreenWidth, d % ScreenWidth;
      assert k == PixelIndex(x, y, scale, r, c);
    }
  }

  /** Letter n + 1 of s is letter n of s[1..], whose origin is six columns further on. */
  lemma LetterCoversTail(k: int, s: string, n: int, x: int, y: int, scale: int)
    requires 0 <= n && n + 1 < |s|
    ensures LetterCovers(k, s, n + 1, x, y, scale) == LetterCovers(k, s[1..], n, x + Advance, y, scale)
  {
    assert s[1..][n] == s[n + 1];
    assert x + Advance * (n + 1) == (x + Advance) + Advance * n;
  }

  /** Index k is painted by the first letter of s or by one of the rest, six columns on. */
  lemma InStringCons(k: int, s: string, x: int, y: int, scale: int)
    requires 0 < |s|
    ensures InString(k, s, x, y, scale)
            <==> LetterCovers(k, s, 0, x, y, scale) || InString(k, s[1..], x + Advance, y, scale)
  {
    if InString(k, s, x, y, scale) {
      var n :| 0 <= n < |s| && LetterCovers(k, s, n, x, y, scale);
      if n > 0 {
        LetterCoversTail(k, s, n - 1, x, y, scale);
      }
    }
    if InString(k, s[1..], x + Advance, y, scale) {
      var n :| 0 <= n < |s[1..]| && LetterCovers(k, s[1..], n, x + Advance, y, scale);
      LetterCoversTail(k, s, n, x, y, scale);
    }
  }

  /** drawChar for the first letter of s paints exactly the pixels that letter covers. */
  lemma FirstLetterPaints(p: seq<Uint16>, s: string, x: int, y: int, scale: int, color: Uint32, k: int)
    requires 0 < |s| && 0 <= k < |p|
    ensures PaintChar(p, AlphabetIndex(s[0]), x, y, scale, color)[k]
            == if LetterCovers(k, s, 0, x, y, scale) then ToUint16(color) else p[k]
  {
    var index := AlphabetIndex(s[0]);
    assert x + Advance * 0 == x;
    PaintBitmapAt(p, x, y, index, GlyphWidth, Alphabet, AlphabetHeight, scale, color, k);
  }

  /** drawBitmap's result at one pixel. */
  lemma PaintBitmapAt(p: seq<Uint16>, i: int, j: int, index: int, width: int, bitmap: seq<string>,
                      rows: int, scale: int, color: Uint32, k: int)
    requires 0 <= k < |p|
    ensures PaintBitmap(p, i, j, index, width, bitmap, rows, scale, color)[k]
            == if InGlyph(k, i, j, index, width, bitmap, scale, rows) then ToUint16(color) else p[k]
  {
  }

  /**
   * drawString's result pixel by pixel: a pixel covered by any letter's glyph
   * holds the colour, every other pixel keeps its value.
   */
  lemma {:induction false} PaintStringCovers(p: seq<Uint16>, s: string, x: int, y: int, scale: int,
                                             color: Uint32, k: int)
    requires 0 <= k < |p|
    ensures PaintString(p, s, x, y, scale, color)[k]
            == if InString(k, s, x, y, scale) then ToUint16(color) else p[k]
    decreases |s|
  {
    if |s| > 0 {
      var p' := PaintChar(p, AlphabetIndex(s[0]), x, y, scale, color);
      assert PaintString(p, s, x, y, scale, color) == PaintString(p', s[1..], x + Advance, y, scale, color);
      PaintStringCovers(p', s[1..], x + Advance, y, scale, color, k);
      FirstLetterPaints(p, s, x, y, scale, color, k);
      InStringCons(k, s, x, y, scale);
    }
  }

  /** Drawing the same string twice leaves the buffer as drawing it once. */
  lemma PaintStringIdempotent(p: seq<Uint16>, s: string, x: int, y: int, scale: int, color: Uint32)
    ensures PaintString(PaintString(p, s, x, y, scale, color), s, x, y, scale, color)
            == PaintString(p, s, x, y, scale, color)
  {
    var once := PaintString(p, s, x, y, scale, color);
    var twice := PaintString(once, s, x, y, scale, color);
    forall k | 0 <= k < |p|
      ensures twice[k] == once[k]
    {
      PaintStringCovers(p, s, x, y, scale, color, k);
      PaintStringCovers(once, s, x, y, scale, color, k);
    }
  }

  /** Drawing s + t is drawing s, then t from the column where s ended. */
  lemma {:induction false} PaintStringAppend(p: seq<Uint16>, s: string, t: string, x: int, y: int,
                                             scale: int, color: Uint32)
    ensures PaintString(p, s + t, x, y, scale, color)
            == PaintString(PaintString(p, s, x, y, scale, color), t, x + Advance * |s|, y, scale, color)
    decreases |s|
  {
    if |s| > 0 {
      var p' := PaintChar(p, AlphabetIndex(s[0]), x, y, scale, color);
      assert (s + t)[0] == s[0];
      assert (s + t)[1..] == s[1..] + t;
      PaintStringAppend(p', s[1..], t, x + Advance, y, scale, color);
    } else {
      assert s + t == t;
    }
  }

  /**
   * The screen initDisplay leaves: "START" in red, every other pixel the
   * background's low 16 bits.
   */
  lemma StartScreen(bg: Uint32, k: int)
    requires 0 <= k < PixelCount
    ensures PaintString(Filled(bg), "START", 0, 0, 4, ColorsMap[2].hex)[k]
            == if InString(k, "START", 0, 0, 4) then 0xf00 else ToUint16(bg)
  {
    PaintStringCovers(Filled(bg), "START", 0, 0, 4, ColorsMap[2].hex, k);
  }

  /** Every named colour is a 12-bit RGB value, stored unchanged in a 16-bit pixel. */
  lemma ColorsAreRgb444(n: int)
    requires 0 <= n < |ColorsMap|
    ensures ColorsMap[n].hex < 0x1000 && ToUint16(ColorsMap[n].hex) == ColorsMap[n].hex
  {
  }
}
