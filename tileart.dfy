/**
 * The editor's tile-art converter: a pixel image becomes one tile layer per
 * group of up to 255 distinct opaque colours, each layer drawing from a
 * generated 1024×1024 image whose 64×64 tiles are filled with the group's
 * colours.  Pixels are read from and written to byte buffers of 1-, 2-, 3-
 * or 4-byte pixels; colours are ordered lexicographically by channel.
 */
module TileArt {
  import opened Container
  import opened MapItems
  import opened MapModel
  import opened LoadSpec
  import opened EditorMap

  // ---------------------------------------------------------------------
  // Colours and their order

  /** A colour as the converter handles it: four channels read from pixel bytes. */
  datatype Rgba = Rgba(r: byte, g: byte, b: byte, a: byte)

  /** A value-initialised colour: the content of a colour-group slot nothing was copied into. */
  const NO_COLOR := Rgba(0, 0, 0, 0)

  /** The colour order: by red, then green, then blue, then alpha. */
  predicate Less(c: Rgba, d: Rgba)
  {
    if c.r != d.r then c.r < d.r
    else if c.g != d.g then c.g < d.g
    else if c.b != d.b then c.b < d.b
    else c.a < d.a
  }

  /** The four channels read as one base-256 number, most significant channel first. */
  function Key(c: Rgba): int
  {
    c.r * 0x100_0000 + c.g * 0x1_0000 + c.b * 0x100 + c.a
  }

  /** The colour order is the numeric order of the keys. */
  lemma {:induction false} LessIsKeyOrder(c: Rgba, d: Rgba)
    ensures Less(c, d) <==> Key(c) < Key(d)
  {
    if c.r != d.r {
      assert c.r < d.r ==> Key(c) < (c.r + 1) * 0x100_0000 <= Key(d);
      assert d.r < c.r ==> Key(d) < (d.r + 1) * 0x100_0000 <= Key(c);
    } else if c.g != d.g {
      assert c.g < d.g ==> Key(c) < c.r * 0x100_0000 + (c.g + 1) * 0x1_0000 <= Key(d);
      assert d.g < c.g ==> Key(d) < d.r * 0x100_0000 + (d.g + 1) * 0x1_0000 <= Key(c);
    } else if c.b != d.b {
      assert c.b < d.b ==> Key(c) < c.r * 0x100_0000 + c.g * 0x1_0000 + (c.b + 1) * 0x100 <= Key(d);
      assert d.b < c.b ==> Key(d) < d.r * 0x100_0000 + d.g * 0x1_0000 + (d.b + 1) * 0x100 <= Key(c);
    }
  }

  /** Different colours have different keys. */
  lemma {:induction false} KeyInjective(c: Rgba, d: Rgba)
    ensures Key(c) == Key(d) <==> c == d
  {
    LessIsKeyOrder(c, d);
    LessIsKeyOrder(d, c);
  }

  /** The colour order is a strict total order: irreflexive, transitive, and any two different colours are comparable. */
  lemma {:induction false} LessIsStrictTotal(c: Rgba, d: Rgba, e: Rgba)
    ensures !Less(c, c)
    ensures Less(c, d) && Less(d, e) ==> Less(c, e)
    ensures c != d ==> Less(c, d) || Less(d, c)
    ensures !(Less(c, d) && Less(d, c))
  {
    LessIsKeyOrder(c, c);
    LessIsKeyOrder(c, d);
    LessIsKeyOrder(d, c);
    LessIsKeyOrder(d, e);
    LessIsKeyOrder(c, e);
    KeyInjective(c, d);
  }

  // ---------------------------------------------------------------------
  // Pixels

  /** The first byte of pixel (x, y) in a buffer of `width`-pixel rows of `ps`-byte pixels. */
  function PixelStart(width: nat, ps: nat, x: nat, y: nat): nat
  {
    x * ps + width * ps * y
  }

  /** How many bytes the pixel accessors touch as written: one for 1-byte pixels, four for 4-byte pixels, three otherwise. */
  function Touched(ps: nat): nat
  {
    if ps == 1 then 1 else if ps == 4 then 4 else 3
  }

  /**
   * The pixel read as written: a 1-byte pixel is alpha over white; any other
   * pixel reads three colour bytes, and a fourth (alpha) only for 4-byte
   * pixels, so a 2-byte grey-and-alpha pixel is read as three bytes.
   */
  function GetPixelColorAsWritten(data: seq<byte>, width: nat, ps: nat, x: nat, y: nat): (c: Rgba)
    requires PixelStart(width, ps, x, y) + Touched(ps) <= |data|
    ensures ps == 3 ==> c.a == 255
  {
    var s := PixelStart(width, ps, x, y);
    if ps == 1 then Rgba(255, 255, 255, data[s])
    else Rgba(data[s], data[s + 1], data[s + 2], if ps == 4 then data[s + 3] else 255)
  }

  /**
   * On a grey-and-alpha image (2-byte pixels) held in exactly width × height
   * × 2 bytes, reading the last pixel as written touches the byte just past
   * the buffer.
   */
  lemma {:induction false} GreyAlphaReadOverruns(width: nat, height: nat)
    requires width > 0 && height > 0
    ensures PixelStart(width, 2, width - 1, height - 1) + Touched(2) == width * height * 2 + 1
  {
    assert width * 2 * (height - 1) == width * height * 2 - width * 2;
  }

  /**
   * The pixel read with each pixel size handled: 1-byte pixels are alpha over
   * white, 2-byte pixels grey and alpha, 3-byte pixels opaque colour, 4-byte
   * pixels colour and alpha.
   */
  function GetPixelColor(data: seq<byte>, width: nat, ps: nat, x: nat, y: nat): (c: Rgba)
    requires 1 <= ps <= 4
    requires PixelStart(width, ps, x, y) + ps <= |data|
    ensures ps == 1 ==> c.r == 255 && c.g == 255 && c.b == 255
    ensures ps == 3 ==> c.a == 255
    ensures ps != 2 ==> c == GetPixelColorAsWritten(data, width, ps, x, y)
  {
    var s := PixelStart(width, ps, x, y);
    if ps == 1 then Rgba(255, 255, 255, data[s])
    else if ps == 2 then Rgba(data[s], data[s], data[s], data[s + 1])
    else Rgba(data[s], data[s + 1], data[s + 2], if ps == 4 then data[s + 3] else 255)
  }

  /** Multiplying by a fixed factor keeps the order (a helper for the pixel bounds). */
  lemma {:induction false} MulLe(a: nat, b: nat, c: nat)
    requires b <= c
    ensures a * b <= a * c
  {
  }

  /** Every pixel of a width × height image of ps-byte pixels lies inside its width × height × ps bytes. */
  lemma {:induction false} PixelInBounds(width: nat, height: nat, ps: nat, x: nat, y: nat)
    requires x < width && y < height
    ensures PixelStart(width, ps, x, y) + ps <= width * height * ps
  {
    MulLe(ps, x + 1, width);
    MulLe(width * ps, y + 1, height);
    assert width * ps * (y + 1) == width * ps * y + width * ps;
    assert width * ps * height == width * height * ps;
  }

  /** Two different pixels of the same image occupy disjoint bytes. */
  lemma {:induction false} PixelsDisjoint(width: nat, ps: nat, x: nat, y: nat, x': nat, y': nat)
    requires x < width && x' < width && (x, y) != (x', y')
    ensures PixelStart(width, ps, x, y) + ps <= PixelStart(width, ps, x', y')
         || PixelStart(width, ps, x', y') + ps <= PixelStart(width, ps, x, y)
  {
    if y == y' {
      if x < x' {
        MulLe(ps, x + 1, x');
        assert (x + 1) * ps == x * ps + ps;
      } else {
        MulLe(ps, x' + 1, x);
        assert (x' + 1) * ps == x' * ps + ps;
      }
    } else if y < y' {
      RowBelow(width, ps, x, y, y');
    } else {
      RowBelow(width, ps, x', y', y);
    }
  }

  /** A pixel ends no later than any pixel of a later row starts. */
  lemma {:induction false} RowBelow(width: nat, ps: nat, x: nat, y: nat, y': nat)
    requires x < width && y < y'
    ensures PixelStart(width, ps, x, y) + ps <= width * ps * y'
  {
    var row := width * ps;
    MulLe(ps, x + 1, width);
    assert (x + 1) * ps == x * ps + ps;
    MulLe(row, y + 1, y');
    assert row * (y + 1) == row * y + row;
  }

  /** The buffer after SetPixelColor: the pixel's bytes replaced by the colour's channels. */
  function SetPixelBytes(data: seq<byte>, width: nat, ps: nat, x: nat, y: nat, c: Rgba): (r: seq<byte>)
    requires PixelStart(width, ps, x, y) + Touched(ps) <= |data|
    ensures |r| == |data|
  {
    var s := PixelStart(width, ps, x, y);
    if ps == 1 then data[s := c.a]
    else
      var d := data[s := c.r][s + 1 := c.g][s + 2 := c.b];
      if ps == 4 then d[s + 3 := c.a] else d
  }

  /** The colour a pixel of `ps` bytes keeps: alpha only for 1-byte pixels, colour only for 3-byte pixels. */
  function Stored(c: Rgba, ps: nat): Rgba
  {
    if ps == 1 then Rgba(255, 255, 255, c.a)
    else if ps == 3 then c.(a := 255)
    else c
  }

  method SetPixelColor(data: array<byte>, width: nat, ps: nat, x: nat, y: nat, c: Rgba)
    requires PixelStart(width, ps, x, y) + Touched(ps) <= data.Length
    modifies data
    ensures data[..] == SetPixelBytes(old(data[..]), width, ps, x, y, c)
  {
    var s := PixelStart(width, ps, x, y);
    if ps == 1 {
      data[s] := c.a;
    } else {
      data[s] := c.r;
      data[s + 1] := c.g;
      data[s + 2] := c.b;
      if ps == 4 {
        data[s + 3] := c.a;
      }
    }
  }

  /** Writing a pixel and reading it back gives the channels its size keeps; no byte outside the pixel changes. */
  lemma {:induction false} SetThenGet(data: seq<byte>, width: nat, ps: nat, x: nat, y: nat, c: Rgba)
    requires ps == 1 || ps == 3 || ps == 4
    requires PixelStart(width, ps, x, y) + ps <= |data|
    ensures GetPixelColor(SetPixelBytes(data, width, ps, x, y, c), width, ps, x, y) == Stored(c, ps)
    ensures forall k :: 0 <= k < |data| && !(PixelStart(width, ps, x, y) <= k < PixelStart(width, ps, x, y) + ps)
                        ==> SetPixelBytes(data, width, ps, x, y, c)[k] == data[k]
  {
  }

  /** Writing one pixel leaves every other pixel of the image as it was. */
  lemma {:induction false} SetKeepsOthers(data: seq<byte>, width: nat, ps: nat, x: nat, y: nat, x': nat, y': nat, c: Rgba)
    requires ps == 1 || ps == 3 || ps == 4
    requires x < width && x' < width && (x, y) != (x', y')
    requires PixelStart(width, ps, x, y) + ps <= |data| && PixelStart(width, ps, x', y') + ps <= |data|
    ensures GetPixelColor(SetPixelBytes(data, width, ps, x, y, c), width, ps, x', y') == GetPixelColor(data, width, ps, x', y')
  {
    PixelsDisjoint(width, ps, x, y, x', y');
  }

  // ---------------------------------------------------------------------
  // The colour-group image

  const TILES_ROW := 16
  const TILES_COLUMN := 16
  const NUM_TILES := TILES_ROW * TILES_COLUMN
  const TILE_SIZE := 64
  /** The side of a colour-group image, and its byte size as RGBA. */
  const ART_SIDE := TILES_ROW * TILE_SIZE
  const ART_BYTES := ART_SIDE * ART_SIDE * 4

  /** CImageInfo: size, pixel format and pixel bytes. */
  datatype ImageInfo = ImageInfo(width: nat, height: nat, format: ImageFormat, data: seq<byte>)

  /** Pixel (x, y) of a 1024-wide RGBA buffer. */
  function ArtPixel(data: seq<byte>, x: nat, y: nat): Rgba
    requires |data| == ART_BYTES && x < ART_SIDE && y < ART_SIDE
  {
    GetPixelColor(data, ART_SIDE, 4, x, y)
  }

  predicate InTile(x: nat, y: nat, tx: nat, ty: nat)
  {
    tx * TILE_SIZE <= x < tx * TILE_SIZE + TILE_SIZE && ty * TILE_SIZE <= y < ty * TILE_SIZE + TILE_SIZE
  }

  /** Writing one pixel of the buffer: that pixel takes the colour, every other pixel keeps its own. */
  lemma {:induction false} ArtPixelWritten(before: seq<byte>, after: seq<byte>, x0: nat, y0: nat, c: Rgba)
    requires |before| == ART_BYTES && x0 < ART_SIDE && y0 < ART_SIDE
    requires after == SetPixelBytes(before, ART_SIDE, 4, x0, y0, c)
    ensures forall x, y :: 0 <= x < ART_SIDE && 0 <= y < ART_SIDE ==>
              ArtPixel(after, x, y) == if x == x0 && y == y0 then c else ArtPixel(before, x, y)
  {
    forall x, y | 0 <= x < ART_SIDE && 0 <= y < ART_SIDE
      ensures ArtPixel(after, x, y) == if x == x0 && y == y0 then c else ArtPixel(before, x, y)
    {
      if x == x0 && y == y0 {
        SetThenGet(before, ART_SIDE, 4, x0, y0, c);
      } else {
        SetKeepsOthers(before, ART_SIDE, 4, x0, y0, x, y, c);
      }
    }
  }

  /** Fills the 64×64 tile (tx, ty) of a colour-group image with one colour, column by column. */
  method SetColorTile(data: array<byte>, tx: nat, ty: nat, c: Rgba)
    requires data.Length == ART_BYTES && tx < TILES_ROW && ty < TILES_COLUMN
    modifies data
    ensures forall x, y :: 0 <= x < ART_SIDE && 0 <= y < ART_SIDE ==>
              ArtPixel(data[..], x, y) == if InTile(x, y, tx, ty) then c else ArtPixel(old(data[..]), x, y)
  {
    var i := 0;
    while i < TILE_SIZE
      invariant 0 <= i <= TILE_SIZE
      invariant forall x, y :: 0 <= x < ART_SIDE && 0 <= y < ART_SIDE ==>
                  ArtPixel(data[..], x, y)
                  == if InTile(x, y, tx, ty) && x < tx * TILE_SIZE + i then c else ArtPixel(old(data[..]), x, y)
    {
      var j := 0;
      while j < TILE_SIZE
        invariant 0 <= j <= TILE_SIZE
        invariant forall x, y :: 0 <= x < ART_SIDE && 0 <= y < ART_SIDE ==>
                    ArtPixel(data[..], x, y)
                    == if InTile(x, y, tx, ty) && (x < tx * TILE_SIZE + i || (x == tx * TILE_SIZE + i && y < ty * TILE_SIZE + j))
                       then c else ArtPixel(old(data[..]), x, y)
      {
        ghost var before := data[..];
        SetPixelColor(data, ART_SIDE, 4, tx * TILE_SIZE + i, ty * TILE_SIZE + j, c);
        ArtPixelWritten(before, data[..], tx * TILE_SIZE + i, ty * TILE_SIZE + j, c);
        j := j + 1;
      }
      i := i + 1;
    }
  }

  /** The tile of the colour group that pixel (x, y) of its image shows. */
  function TileOf(x: nat, y: nat): nat
  {
    x / TILE_SIZE + TILES_ROW * (y / TILE_SIZE)
  }

  lemma {:induction false} InTileIsTileOf(x: nat, y: nat, tx: nat, ty: nat)
    ensures InTile(x, y, tx, ty) <==> x / TILE_SIZE == tx && y / TILE_SIZE == ty
  {
  }

  /** A 1024×1024 RGBA image whose every pixel shows the group's colour for the tile it lies in. */
  predicate ShowsGroup(img: ImageInfo, group: seq<Rgba>)
    requires |group| == NUM_TILES
  {
    && img.width == ART_SIDE && img.height == ART_SIDE && img.format == FormatRGBA && |img.data| == ART_BYTES
    && forall x, y :: 0 <= x < ART_SIDE && 0 <= y < ART_SIDE ==> ArtPixel(img.data, x, y) == group[TileOf(x, y)]
  }

  /**
   * The image of a colour group: 1024×1024 RGBA, tile (x, y) of 64×64 pixels
   * filled with slot x + 16y of the group, row of tiles by row of tiles.
   */
  method ColorGroupToImage(group: seq<Rgba>) returns (img: ImageInfo)
    requires |group| == NUM_TILES
    ensures ShowsGroup(img, group)
  {
    var data := new byte[ART_BYTES];
    var ty := 0;
    while ty < TILES_COLUMN
      invariant 0 <= ty <= TILES_COLUMN
      invariant forall x, y :: 0 <= x < ART_SIDE && 0 <= y < ART_SIDE && y / TILE_SIZE < ty ==>
                  ArtPixel(data[..], x, y) == group[TileOf(x, y)]
    {
      var tx := 0;
      while tx < TILES_ROW
        invariant 0 <= tx <= TILES_ROW
        invariant forall x, y ::
                    (0 <= x < ART_SIDE && 0 <= y < ART_SIDE && (y / TILE_SIZE < ty || (y / TILE_SIZE == ty && x / TILE_SIZE < tx))) ==>
                    ArtPixel(data[..], x, y) == group[TileOf(x, y)]
      {
        SetColorTile(data, tx, ty, group[tx + TILES_ROW * ty]);
        tx := tx + 1;
      }
      ty := ty + 1;
    }
    img := ImageInfo(ART_SIDE, ART_SIDE, FormatRGBA, data[..]);
  }

  // ---------------------------------------------------------------------
  // Unique colours

  /** A decoded image the converter reads: 1- to 4-byte pixels, exactly width × height of them. */
  predicate ValidImage(img: ImageInfo)
  {
    1 <= PixelSize(img.format) <= 4 && |img.data| == img.width * img.height * PixelSize(img.format)
  }

  /** Pixel (x, y) of an image. */
  function Pixel(img: ImageInfo, x: nat, y: nat): Rgba
    requires ValidImage(img) && x < img.width && y < img.height
  {
    PixelInBounds(img.width, img.height, PixelSize(img.format), x, y);
    GetPixelColor(img.data, img.width, PixelSize(img.format), x, y)
  }

  /** The colours of the image's pixels that are not fully transparent. */
  function OpaqueColors(img: ImageInfo): set<Rgba>
    requires ValidImage(img)
  {
    set x, y | 0 <= x < img.width && 0 <= y < img.height && Pixel(img, x, y).a > 0 :: Pixel(img, x, y)
  }

  /** Pixel (x', y') comes before (x, y) in a column-by-column scan. */
  predicate Before(x': nat, y': nat, x: nat, y: nat)
  {
    x' < x || (x' == x && y' < y)
  }

  /** Positions a column-by-column scan can stop at: inside a column, or just past the last one. */
  predicate ScanPos(img: ImageInfo, x: nat, y: nat)
  {
    (x < img.width && y <= img.height) || (x == img.width && y == 0)
  }

  /**
   * The colours the scan has collected once it has looked at every pixel
   * before (x, y), column by column: each colour that is not fully
   * transparent, once, in the order first met.
   */
  function Scan(img: ImageInfo, x: nat, y: nat): seq<Rgba>
    requires ValidImage(img) && ScanPos(img, x, y)
    decreases x, y
  {
    if y > 0 then
      var seen := Scan(img, x, y - 1);
      var c := Pixel(img, x, y - 1);
      if c.a > 0 && c !in seen then seen + [c] else seen
    else if x > 0 then Scan(img, x - 1, img.height)
    else []
  }

  /** Some pixel before (x, y) has colour c. */
  predicate SeenBefore(img: ImageInfo, c: Rgba, x: nat, y: nat)
    requires ValidImage(img)
  {
    exists x': nat, y': nat :: x' < img.width && y' < img.height && Before(x', y', x, y) && Pixel(img, x', y') == c
  }

  predicate Distinct(s: seq<Rgba>)
  {
    forall i, j :: 0 <= i < j < |s| ==> s[i] != s[j]
  }

  /** What the scan up to (x, y) holds: each colour once, exactly the non-transparent colours passed. */
  ghost predicate ScanHolds(img: ImageInfo, x: nat, y: nat)
    requires ValidImage(img) && ScanPos(img, x, y)
  {
    && Distinct(Scan(img, x, y))
    && forall c :: c in Scan(img, x, y) <==> c.a > 0 && SeenBefore(img, c, x, y)
  }

  /** One more pixel down the column keeps what the scan holds. */
  lemma {:induction false} ScanStepDown(img: ImageInfo, x: nat, y: nat)
    requires ValidImage(img) && ScanPos(img, x, y) && y > 0
    requires ScanHolds(img, x, y - 1)
    ensures ScanHolds(img, x, y)
  {
    var p := Pixel(img, x, y - 1);
    forall c
      ensures c in Scan(img, x, y) <==> c.a > 0 && SeenBefore(img, c, x, y)
    {
      if c == p && c.a > 0 {
        assert Before(x, y - 1, x, y);
      }
      if c.a > 0 && SeenBefore(img, c, x, y) {
        var x': nat, y': nat :| x' < img.width && y' < img.height && Before(x', y', x, y) && Pixel(img, x', y') == c;
        if (x', y') != (x, y - 1) {
          assert Before(x', y', x, y - 1);
        }
      }
    }
  }

  /** Starting a new column keeps what the scan holds. */
  lemma {:induction false} ScanStepColumn(img: ImageInfo, x: nat)
    requires ValidImage(img) && ScanPos(img, x, 0) && x > 0
    requires ScanHolds(img, x - 1, img.height)
    ensures ScanHolds(img, x, 0)
  {
    forall c
      ensures c in Scan(img, x, 0) <==> c.a > 0 && SeenBefore(img, c, x, 0)
    {
      if c.a > 0 && SeenBefore(img, c, x, 0) {
        var x': nat, y': nat :| x' < img.width && y' < img.height && Before(x', y', x, 0) && Pixel(img, x', y') == c;
        assert Before(x', y', x - 1, img.height);
      }
    }
  }

  /** The scan holds each colour once, and exactly the non-transparent colours of the pixels it has passed. */
  lemma {:induction false} ScanColors(img: ImageInfo, x: nat, y: nat)
    requires ValidImage(img) && ScanPos(img, x, y)
    ensures ScanHolds(img, x, y)
    decreases x, y
  {
    if y > 0 {
      ScanColors(img, x, y - 1);
      ScanStepDown(img, x, y);
    } else if x > 0 {
      ScanColors(img, x - 1, img.height);
      ScanStepColumn(img, x);
    }
  }

  // std::sort on colours

  /** Strictly increasing in the colour order. */
  predicate StrictlySorted(s: seq<Rgba>)
  {
    forall i, j :: 0 <= i < j < |s| ==> Less(s[i], s[j])
  }

  lemma {:induction false} LessTransitive()
    ensures forall c, d, e :: Less(c, d) && Less(d, e) ==> Less(c, e)
  {
    forall c, d, e | Less(c, d) && Less(d, e)
      ensures Less(c, e)
    {
      LessIsStrictTotal(c, d, e);
    }
  }

  /** Inserting a colour in front of the first larger one. */
  function Insert(s: seq<Rgba>, c: Rgba): (r: seq<Rgba>)
    ensures multiset(r) == multiset(s) + multiset{c}
  {
    if s == [] then [c]
    else if Less(c, s[0]) then [c] + s
    else
      assert s == [s[0]] + s[1..];
      [s[0]] + Insert(s[1..], c)
  }

  lemma {:induction false} InsertSorted(s: seq<Rgba>, c: Rgba)
    requires StrictlySorted(s) && c !in s
    ensures StrictlySorted(Insert(s, c))
  {
    LessTransitive();
    if s != [] && !Less(c, s[0]) {
      LessIsStrictTotal(c, s[0], c);
      InsertSorted(s[1..], c);
      var r := Insert(s[1..], c);
      forall k | 0 <= k < |r|
        ensures Less(s[0], r[k])
      {
        assert r[k] in multiset(r);
        if r[k] != c {
          assert r[k] in multiset(s[1..]);
          var m :| 0 <= m < |s[1..]| && s[1..][m] == r[k];
          assert s[m + 1] == r[k];
        }
      }
    }
  }

  /** The sort as an insertion sort; for distinct colours every sorting algorithm gives the same order (SortedIsUnique). */
  function SortColors(v: seq<Rgba>): (r: seq<Rgba>)
    ensures multiset(r) == multiset(v)
  {
    if v == [] then []
    else
      assert v == v[..|v| - 1] + [v[|v| - 1]];
      Insert(SortColors(v[..|v| - 1]), v[|v| - 1])
  }

  /** Sorting distinct colours gives them in strictly increasing order. */
  lemma {:induction false} SortColorsSorted(v: seq<Rgba>)
    requires Distinct(v)
    ensures StrictlySorted(SortColors(v))
  {
    if v != [] {
      var pre := v[..|v| - 1];
      SortColorsSorted(pre);
      assert v[|v| - 1] !in multiset(pre);
      assert v[|v| - 1] !in multiset(SortColors(pre));
      InsertSorted(SortColors(pre), v[|v| - 1]);
    }
  }

  /** Two strictly sorted sequences of the same colours are the same sequence. */
  lemma {:induction false} SortedIsUnique(s: seq<Rgba>, t: seq<Rgba>)
    requires StrictlySorted(s) && StrictlySorted(t) && multiset(s) == multiset(t)
    ensures s == t
    decreases |s|
  {
    assert |s| == |multiset(s)| == |t|;
    if s != [] {
      SortedHeads(s, t);
      assert s == [s[0]] + s[1..] && t == [t[0]] + t[1..];
      assert multiset(s[1..]) == multiset(s) - multiset{s[0]};
      assert multiset(t[1..]) == multiset(t) - multiset{t[0]};
      SortedIsUnique(s[1..], t[1..]);
    }
  }

  /** Two strictly sorted non-empty sequences of the same colours start with the same colour. */
  lemma {:induction false} SortedHeads(s: seq<Rgba>, t: seq<Rgba>)
    requires StrictlySorted(s) && StrictlySorted(t) && multiset(s) == multiset(t) && s != [] && t != []
    ensures s[0] == t[0]
  {
    if s[0] != t[0] {
      assert s[0] in multiset(t) && t[0] in multiset(s);
      var k :| 0 <= k < |t| && t[k] == s[0];
      var m :| 0 <= m < |s| && s[m] == t[0];
      assert 0 < k && Less(t[0], t[k]);
      assert 0 < m && Less(s[0], s[m]);
      LessIsStrictTotal(s[0], t[0], s[0]);
      assert false;
    }
  }

  /** The result of GetUniqueColors: the collected colours, sorted. */
  function UniqueColors(img: ImageInfo): seq<Rgba>
    requires ValidImage(img)
  {
    SortColors(Scan(img, img.width, 0))
  }

  /** The unique colours are strictly increasing and are exactly the colours of the image's non-transparent pixels. */
  lemma {:induction false} UniqueColorsAreOpaqueColors(img: ImageInfo)
    requires ValidImage(img)
    ensures StrictlySorted(UniqueColors(img))
    ensures forall c :: c in UniqueColors(img) <==> c in OpaqueColors(img)
  {
    var v := Scan(img, img.width, 0);
    ScanColors(img, img.width, 0);
    SortColorsSorted(v);
    forall c
      ensures c in UniqueColors(img) <==> c in v
    {
      calc {
        c in UniqueColors(img);
        c in multiset(UniqueColors(img));
        c in multiset(v);
        c in v;
      }
    }
    forall c | c in OpaqueColors(img)
      ensures c in v
    {
      var x, y :| 0 <= x < img.width && 0 <= y < img.height && Pixel(img, x, y).a > 0 && Pixel(img, x, y) == c;
      assert Before(x, y, img.width, 0);
    }
    forall c | c in v
      ensures c in OpaqueColors(img)
    {
      var x: nat, y: nat :| x < img.width && y < img.height && Before(x, y, img.width, 0) && Pixel(img, x, y) == c;
    }
  }

  /**
   * GetUniqueColors: every pixel, column by column, collecting each colour
   * that is not fully transparent the first time it is met (a set of the
   * colours seen so far answers "met before?"); then the colours are sorted.
   */
  method GetUniqueColors(img: ImageInfo) returns (colors: seq<Rgba>)
    requires ValidImage(img)
    ensures colors == UniqueColors(img)
  {
    var seen: set<Rgba> := {};
    var found: seq<Rgba> := [];
    var x := 0;
    while x < img.width
      invariant x <= img.width
      invariant found == Scan(img, x, 0)
      invariant forall c :: c in seen <==> c in found
    {
      var y := 0;
      while y < img.height
        invariant y <= img.height
        invariant found == Scan(img, x, y)
        invariant forall c :: c in seen <==> c in found
      {
        var c := Pixel(img, x, y);
        if c.a > 0 && c !in seen {
          seen := seen + {c};
          found := found + [c];
        }
        y := y + 1;
      }
      x := x + 1;
    }
    colors := SortColors(found);
  }

  // ---------------------------------------------------------------------
  // Colour groups

  /** std::find: the first position holding the colour, or the length when none does. */
  function Find(g: seq<Rgba>, c: Rgba): (r: nat)
    ensures r <= |g|
    ensures r < |g| ==> g[r] == c
    ensures forall k :: 0 <= k < r ==> g[k] != c
  {
    if g == [] then 0
    else if g[0] == c then 0
    else 1 + Find(g[1..], c)
  }

  /** The tile index of a colour in a group: its first slot, or 0 (the empty tile) when the group does not hold it. */
  function GetColorIndex(g: seq<Rgba>, c: Rgba): (r: nat)
    ensures c in g ==> r < |g| && g[r] == c && forall k :: 0 <= k < r ==> g[k] != c
    ensures c !in g ==> r == 0
  {
    var i := Find(g, c);
    if i == |g| then 0 else i
  }

  /** The number of colour groups for n colours: n / 255 rounded up. */
  function NumGroups(n: nat): nat
  {
    (n + NUM_TILES - 2) / (NUM_TILES - 1)
  }

  /**
   * Group k of a colour list: slot 0 left empty, slots 1 to 255 holding
   * colours 255k to 255k + 254, and empty slots past the end of the list.
   */
  function ColorGroup(colors: seq<Rgba>, k: nat): (g: seq<Rgba>)
    ensures |g| == NUM_TILES
  {
    seq(NUM_TILES, s requires 0 <= s < NUM_TILES =>
      if 1 <= s && (NUM_TILES - 1) * k + s - 1 < |colors| then colors[(NUM_TILES - 1) * k + s - 1] else NO_COLOR)
  }

  /**
   * GroupColors: the colours cut into runs of 255, each run copied into a
   * new all-empty group from slot 1 on.
   */
  method GroupColors(colors: seq<Rgba>) returns (groups: seq<seq<Rgba>>)
    ensures |groups| == NumGroups(|colors|)
    ensures forall k :: 0 <= k < |groups| ==> groups[k] == ColorGroup(colors, k)
  {
    groups := [];
    var i := 0;
    while i < |colors|
      invariant i == (NUM_TILES - 1) * |groups|
      invariant |groups| > 0 ==> (NUM_TILES - 1) * (|groups| - 1) < |colors|
      invariant forall k :: 0 <= k < |groups| ==> groups[k] == ColorGroup(colors, k)
    {
      var group := seq(NUM_TILES, _ => NO_COLOR);
      var n := if NUM_TILES - 1 < |colors| - i then NUM_TILES - 1 else |colors| - i;
      group := group[..1] + colors[i..i + n] + group[1 + n..];
      assert group == ColorGroup(colors, |groups|);
      groups := groups + [group];
      i := i + NUM_TILES - 1;
    }
  }

  /**
   * In the groups of distinct non-transparent colours, colour i sits in
   * group i / 255 at tile index 1 + i mod 255, and no other group holds it.
   */
  lemma {:induction false} ColorIndexInGroups(colors: seq<Rgba>, i: nat, k: nat)
    requires Distinct(colors) && forall j :: 0 <= j < |colors| ==> colors[j].a > 0
    requires i < |colors|
    ensures GetColorIndex(ColorGroup(colors, k), colors[i])
            == if k == i / (NUM_TILES - 1) then 1 + i % (NUM_TILES - 1) else 0
  {
    var g := ColorGroup(colors, k);
    var c := colors[i];
    if k == i / (NUM_TILES - 1) {
      var s := 1 + i % (NUM_TILES - 1);
      assert g[s] == c;
      forall s' | 0 <= s' < s
        ensures g[s'] != c
      {
        if 1 <= s' {
          assert g[s'] == colors[(NUM_TILES - 1) * k + s' - 1];
        }
      }
    } else {
      forall s' | 0 <= s' < NUM_TILES
        ensures g[s'] != c
      {
        if 1 <= s' && (NUM_TILES - 1) * k + s' - 1 < |colors| {
          assert (NUM_TILES - 1) * k + s' - 1 != i;
        }
      }
    }
  }

  /** The unique colours of an image are distinct and none of them is transparent. */
  lemma {:induction false} UniqueColorsDistinctOpaque(img: ImageInfo)
    requires ValidImage(img)
    ensures var u := UniqueColors(img); Distinct(u) && forall j :: 0 <= j < |u| ==> u[j].a > 0
  {
    var u := UniqueColors(img);
    UniqueColorsAreOpaqueColors(img);
    forall i, j | 0 <= i < j < |u|
      ensures u[i] != u[j]
    {
      LessIsStrictTotal(u[i], u[j], u[i]);
    }
    forall j | 0 <= j < |u|
      ensures u[j].a > 0
    {
      assert u[j] in OpaqueColors(img);
    }
  }

  /** A transparent colour has no slot in any group of opaque colours. */
  lemma {:induction false} TransparentInNoGroup(colors: seq<Rgba>, c: Rgba, k: nat)
    requires forall j :: 0 <= j < |colors| ==> colors[j].a > 0
    requires c.a == 0
    ensures GetColorIndex(ColorGroup(colors, k), c) == 0
  {
    var g := ColorGroup(colors, k);
    assert g[0] == NO_COLOR;
    forall s | 1 <= s < |g|
      ensures g[s] == NO_COLOR || g[s].a > 0
    {
      if (NUM_TILES - 1) * k + s - 1 < |colors| {
        assert g[s] == colors[(NUM_TILES - 1) * k + s - 1];
      }
    }
  }

  /**
   * Every layer of the tile art draws a pixel with its colour or leaves it
   * empty; a fully transparent pixel is empty in every layer, and a pixel
   * that is not is drawn by exactly one layer.
   */
  lemma {:induction false} EachPixelDrawnOnce(img: ImageInfo, x: nat, y: nat)
    requires ValidImage(img) && x < img.width && y < img.height
    ensures var u := UniqueColors(img);
            var p := Pixel(img, x, y);
            && (forall k :: GetColorIndex(ColorGroup(u, k), p) != 0 ==> ColorGroup(u, k)[GetColorIndex(ColorGroup(u, k), p)] == p)
            && (p.a == 0 ==> forall k :: GetColorIndex(ColorGroup(u, k), p) == 0)
            && (p.a > 0 ==> exists k :: 0 <= k < NumGroups(|u|) && GetColorIndex(ColorGroup(u, k), p) != 0)
            && (forall k, k' :: GetColorIndex(ColorGroup(u, k), p) != 0 && GetColorIndex(ColorGroup(u, k'), p) != 0 ==> k == k')
  {
    var u := UniqueColors(img);
    var p := Pixel(img, x, y);
    UniqueColorsDistinctOpaque(img);
    if p.a > 0 {
      UniqueColorsAreOpaqueColors(img);
      assert p in OpaqueColors(img);
      var i :| 0 <= i < |u| && u[i] == p;
      forall k
        ensures GetColorIndex(ColorGroup(u, k), p) == if k == i / (NUM_TILES - 1) then 1 + i % (NUM_TILES - 1) else 0
      {
        ColorIndexInGroups(u, i, k);
      }
      assert GetColorIndex(ColorGroup(u, i / (NUM_TILES - 1)), p) != 0;
    } else {
      forall k
        ensures GetColorIndex(ColorGroup(u, k), p) == 0
      {
        TransparentInNoGroup(u, p, k);
      }
    }
  }

  // ---------------------------------------------------------------------
  // Tile indices

  /** The position of tile (x, y) in a layer `width` tiles wide. */
  function Cell(width: nat, height: nat, x: nat, y: nat): (c: nat)
    requires x < width && y < height
    ensures c < width * height
  {
    PixelInBounds(width, height, 1, x, y);
    assert width * height * 1 == width * height;
    x + y * width
  }

  /** Different tiles of a layer have different positions. */
  lemma {:induction false} CellsDistinct(width: nat, height: nat, x: nat, y: nat, x': nat, y': nat)
    requires x < width && y < height && x' < width && y' < height
    ensures (x, y) != (x', y') ==> Cell(width, height, x, y) != Cell(width, height, x', y')
  {
    assert PixelStart(width, 1, x, y) == Cell(width, height, x, y);
    assert PixelStart(width, 1, x', y') == Cell(width, height, x', y');
    if (x, y) != (x', y') {
      PixelsDisjoint(width, 1, x, y, x', y');
    }
  }

  /** A tile drawing the colour's slot of the group, its other fields kept. */
  function Recolored(t: Tile, group: seq<Rgba>, c: Rgba): Tile
    requires |group| == NUM_TILES
  {
    t.(index := GetColorIndex(group, c))
  }

  /** A tile layer the converter fills: as many tiles as its width × height, no larger than the image. */
  predicate ArtLayer(l: Layer, img: ImageInfo)
  {
    && l.TilesLayer? && 0 <= l.width <= img.width && 0 <= l.height <= img.height
    && |l.tiles| == l.width * l.height
  }

  /** One tile of SetTilelayerIndices: the tile at (x, y) takes the index of pixel (x, y)'s colour. */
  method SetTileIndex(tiles: seq<Tile>, width: nat, height: nat, x: nat, y: nat, group: seq<Rgba>, c: Rgba) returns (r: seq<Tile>)
    requires |tiles| == width * height && x < width && y < height && |group| == NUM_TILES
    ensures |r| == |tiles|
    ensures forall x', y' :: 0 <= x' < width && 0 <= y' < height ==>
              r[Cell(width, height, x', y')] == if (x', y') == (x, y) then Recolored(tiles[Cell(width, height, x, y)], group, c) else tiles[Cell(width, height, x', y')]
  {
    r := tiles[Cell(width, height, x, y) := Recolored(tiles[Cell(width, height, x, y)], group, c)];
    forall x', y' | 0 <= x' < width && 0 <= y' < height
      ensures r[Cell(width, height, x', y')] == if (x', y') == (x, y) then Recolored(tiles[Cell(width, height, x, y)], group, c) else tiles[Cell(width, height, x', y')]
    {
      CellsDistinct(width, height, x', y', x, y);
    }
  }

  /**
   * SetTilelayerIndices: column by column, every tile of the layer takes
   * the index in the colour group of the image's pixel at the same place.
   */
  method SetTilelayerIndices(l: Layer, group: seq<Rgba>, img: ImageInfo) returns (r: Layer)
    requires ArtLayer(l, img) && ValidImage(img) && |group| == NUM_TILES
    ensures r.TilesLayer? && r == l.(tiles := r.tiles) && |r.tiles| == |l.tiles|
    ensures forall x, y :: 0 <= x < l.width && 0 <= y < l.height ==>
              r.tiles[Cell(l.width, l.height, x, y)] == Recolored(l.tiles[Cell(l.width, l.height, x, y)], group, Pixel(img, x, y))
  {
    var w, h := l.width as nat, l.height as nat;
    var tiles := l.tiles;
    var x := 0;
    while x < w
      invariant x <= w && |tiles| == w * h
      invariant forall x', y' :: 0 <= x' < w && 0 <= y' < h ==>
                  tiles[Cell(w, h, x', y')] == if x' < x then Recolored(l.tiles[Cell(w, h, x', y')], group, Pixel(img, x', y')) else l.tiles[Cell(w, h, x', y')]
    {
      var y := 0;
      while y < h
        invariant y <= h && |tiles| == w * h
        invariant forall x', y' :: 0 <= x' < w && 0 <= y' < h ==>
                    tiles[Cell(w, h, x', y')]
                    == if Before(x', y', x, y) then Recolored(l.tiles[Cell(w, h, x', y')], group, Pixel(img, x', y')) else l.tiles[Cell(w, h, x', y')]
      {
        tiles := SetTileIndex(tiles, w, h, x, y, group, Pixel(img, x, y));
        y := y + 1;
      }
      x := x + 1;
    }
    r := l.(tiles := tiles);
  }

  /** ColorGroupsToImages: one image per colour group, in order. */
  method ColorGroupsToImages(groups: seq<seq<Rgba>>) returns (images: seq<ImageInfo>)
    requires forall k :: 0 <= k < |groups| ==> |groups[k]| == NUM_TILES
    ensures |images| == |groups|
    ensures forall k :: 0 <= k < |groups| ==> ShowsGroup(images[k], groups[k])
  {
    images := [];
    for k := 0 to |groups|
      invariant |images| == k
      invariant forall j :: 0 <= j < k ==> ShowsGroup(images[j], groups[j])
    {
      var img := ColorGroupToImage(groups[k]);
      images := images + [img];
    }
  }

  // ---------------------------------------------------------------------
  // Adding the tile art to the map

  /** The decimal digits of n, as "%zu" prints them. */
  function Decimal(n: nat): (s: seq<byte>)
    ensures |s| >= 1 && forall k :: 0 <= k < |s| ==> '0' as int <= s[k] <= '9' as int
  {
    if n < 10 then [48 + n] else Decimal(n / 10) + [48 + n % 10]
  }

  /** The number a string of decimal digits denotes. */
  function DecimalValue(s: seq<byte>): nat
  {
    if s == [] then 0
    else DecimalValue(s[..|s| - 1]) * 10 + (if s[|s| - 1] >= 48 then s[|s| - 1] - 48 else 0)
  }

  /** The printed number reads back as the number. */
  lemma {:induction false} DecimalRoundTrip(n: nat)
    ensures DecimalValue(Decimal(n)) == n
  {
    if n >= 10 {
      DecimalRoundTrip(n / 10);
      var s := Decimal(n);
      assert s[..|s| - 1] == Decimal(n / 10);
    }
  }

  /** The name of the k-th image of a tile art: the file name, a space and k. */
  function ImageName(fileName: seq<byte>, k: nat): seq<byte>
  {
    fileName + [32] + Decimal(k)
  }

  /** ImageInfoToEditorImage: the image's size, format and pixels under the name, embedded (not external). */
  function EditorImage(info: ImageInfo, name: seq<byte>): (im: Image)
    ensures im.external == 0 && im.name == name && im.data == info.data
  {
    Image(info.width, info.height, info.format, 0, name, info.data)
  }

  /** The layer AddLayerWithImage creates: a plain tile layer of the given size using the new image. */
  function ArtLayerShell(width: nat, height: nat, image: nat): (l: Layer)
    ensures ArtLayer(l, ImageInfo(width, height, FormatRGBA, []))
  {
    var l := NewTilesLayer(width, height, PLAIN_KIND);
    assert l.TilesLayer?;
    l.(image := image)
  }

  /**
   * AddLayerWithImage: the image joins the map's images, and a new plain
   * tile layer of the given size, using that image, joins group g.
   */
  method AddLayerWithImage(m: EditorMap, g: nat, width: nat, height: nat, info: ImageInfo, name: seq<byte>) returns (layer: Layer)
    requires g < |m.groups|
    modifies m
    ensures layer == ArtLayerShell(width, height, |old(m.images)|)
    ensures m.images == old(m.images) + [EditorImage(info, name)]
    ensures m.groups == old(m.groups)[g := old(m.groups)[g].(layers := old(m.groups)[g].layers + [layer])]
    ensures m.Snapshot() == old(m.Snapshot()).(images := m.images, groups := m.groups)
  {
    m.images := m.images + [EditorImage(info, name)];
    layer := ArtLayerShell(width, height, |m.images| - 1);
    m.groups := m.groups[g := m.groups[g].(layers := m.groups[g].layers + [layer])];
  }

  /** Layer k of a tile art: the plain layer over image `image` whose tiles index the art's pixels in colour group k. */
  predicate IndexesArt(l: Layer, art: ImageInfo, u: seq<Rgba>, k: nat, image: nat)
    requires ValidImage(art)
  {
    && l.TilesLayer? && ArtLayerShell(art.width, art.height, image).TilesLayer?
    && l == ArtLayerShell(art.width, art.height, image).(tiles := l.tiles)
    && |l.tiles| == art.width * art.height
    && forall x, y :: 0 <= x < art.width && 0 <= y < art.height ==>
         l.tiles[Cell(art.width, art.height, x, y)] == Recolored(ZERO_TILE, ColorGroup(u, k), Pixel(art, x, y))
  }

  /** The images of a tile art, in order. */
  predicate ArtImages(ims: seq<Image>, fileName: seq<byte>, u: seq<Rgba>)
  {
    forall k :: 0 <= k < |ims| ==> ShowsArtGroup(ims[k], fileName, u, k)
  }

  /** The layers of a tile art, in order, the first using image n0. */
  predicate ArtLayers(ls: seq<Layer>, art: ImageInfo, u: seq<Rgba>, n0: nat)
    requires ValidImage(art)
  {
    forall k :: 0 <= k < |ls| ==> IndexesArt(ls[k], art, u, k, n0 + k)
  }

  lemma {:induction false} ArtImagesSnoc(ims: seq<Image>, im: Image, fileName: seq<byte>, u: seq<Rgba>)
    requires ArtImages(ims, fileName, u) && ShowsArtGroup(im, fileName, u, |ims|)
    ensures ArtImages(ims + [im], fileName, u)
  {
  }

  lemma {:induction false} ArtLayersSnoc(ls: seq<Layer>, l: Layer, art: ImageInfo, u: seq<Rgba>, n0: nat)
    requires ValidImage(art) && ArtLayers(ls, art, u, n0) && IndexesArt(l, art, u, |ls|, n0 + |ls|)
    ensures ArtLayers(ls + [l], art, u, n0)
  {
  }

  /** The group of a tile art: a new group holding one layer per colour group, the first using image n0. */
  predicate ArtGroup(g: Group, art: ImageInfo, u: seq<Rgba>, n0: nat)
    requires ValidImage(art)
  {
    g == NEW_GROUP.(layers := g.layers) && |g.layers| == NumGroups(|u|) && ArtLayers(g.layers, art, u, n0)
  }

  /**
   * The map after a tile art is added to map m: one image per colour group
   * after m's images, one group drawing the art after m's groups, and
   * nothing else changed.
   */
  predicate TileartAdded(m: MapData, m': MapData, art: ImageInfo, fileName: seq<byte>)
    requires ValidImage(art)
  {
    var u := UniqueColors(art);
    |m'.images| == |m.images| + NumGroups(|u|) && m'.images[..|m.images|] == m.images
    && ArtImages(m'.images[|m.images|..], fileName, u)
    && |m'.groups| == |m.groups| + 1 && m'.groups[..|m.groups|] == m.groups
    && ArtGroup(m'.groups[|m.groups|], art, u, |m.images|)
    && m' == m.(images := m'.images, groups := m'.groups)
  }

  /** Image k of a tile art: named after the file and k + 1, showing colour group k. */
  predicate ShowsArtGroup(im: Image, fileName: seq<byte>, u: seq<Rgba>, k: nat)
  {
    && im.external == 0 && im.name == ImageName(fileName, k + 1) && im.width >= 0 && im.height >= 0
    && ShowsGroup(ImageInfo(im.width, im.height, im.format, im.data), ColorGroup(u, k))
  }

  /** The pop-up events of a tile-art import. */
  datatype Popup = NoPopup | PixelartBigImage | PixelartManyColors | PixelartTooManyColors

  /** How a tile-art import ended. */
  datatype TileartOutcome = LoadFailed | BigImage | TooManyColors | ManyColors | Added

  /** The most images a map may have after a tile-art import is added, plus one. */
  const MAX_IMAGES := 64
  /** The most pixels a tile-art image may have. */
  const MAX_ART_PIXELS := 10_000

  /** TileartCheckColors' decision for an image with n unique colours, the map holding `images` images. */
  function CheckColors(images: nat, n: nat): TileartOutcome
  {
    if images + NumGroups(n) >= MAX_IMAGES then TooManyColors
    else if NumGroups(n) > 1 then ManyColors
    else Added
  }

  /** CallbackAddTileart's decision for the loaded image, if any, the map holding `images` images. */
  function ImportOutcome(png: Option<ImageInfo>, images: nat): TileartOutcome
    requires png.Some? ==> ValidImage(png.value)
  {
    if png.None? then LoadFailed
    else if png.value.width * png.value.height > MAX_ART_PIXELS then BigImage
    else CheckColors(images, |UniqueColors(png.value)|)
  }

  /**
   * A tile art is added without asking only when it fits one layer and the
   * map stays under 64 images; it is refused when it would reach 64.
   */
  lemma {:induction false} AddedArtFits(png: Option<ImageInfo>, images: nat)
    requires png.Some? ==> ValidImage(png.value)
    ensures ImportOutcome(png, images) == Added ==>
              png.Some? && png.value.width * png.value.height <= MAX_ART_PIXELS
              && NumGroups(|UniqueColors(png.value)|) <= 1 && images + NumGroups(|UniqueColors(png.value)|) < MAX_IMAGES
    ensures ImportOutcome(png, images) == TooManyColors ==> images + NumGroups(|UniqueColors(png.value)|) >= MAX_IMAGES
    ensures ImportOutcome(png, images) == ManyColors ==> NumGroups(|UniqueColors(png.value)|) > 1
  {
  }

  /** A tile art of at most 255 colours needs one layer, and more colours need more. */
  lemma {:induction false} NumGroupsOne(n: nat)
    ensures NumGroups(n) <= 1 <==> n <= NUM_TILES - 1
    ensures (NUM_TILES - 1) * (NumGroups(n) - 1) < n <= (NUM_TILES - 1) * NumGroups(n) || n == 0
  {
  }

  /** The part of the editor a tile-art import uses: the map, the loaded image and its name, and the pop-up raised. */
  class Editor {
    const editorMap: EditorMap
    /** m_TileartImageInfo, and whether its pixel data is still held. */
    var art: ImageInfo
    var artLoaded: bool
    /** m_aTileartFilename: the image's file name without directory or extension. */
    var artName: seq<byte>
    var popup: Popup

    constructor (m: EditorMap)
      ensures editorMap == m && !artLoaded && popup == NoPopup
    {
      editorMap := m;
      art := ImageInfo(0, 0, FormatUndefined, []);
      artLoaded := false;
      artName := [];
      popup := NoPopup;
    }

    /**
     * AddTileart: a new group holding one layer per colour group of the
     * image, each layer using a new image of that group's colours and
     * drawing the image's pixels; the image data is released.
     */
    method AddTileart()
      requires artLoaded && ValidImage(art)
      modifies this, editorMap
      ensures !artLoaded && art == old(art) && artName == old(artName) && popup == old(popup)
      ensures |editorMap.images| == |old(editorMap.images)| + NumGroups(|UniqueColors(art)|)
      ensures editorMap.images[..|old(editorMap.images)|] == old(editorMap.images)
      ensures ArtImages(editorMap.images[|old(editorMap.images)|..], artName, UniqueColors(art))
      ensures |editorMap.groups| == |old(editorMap.groups)| + 1 && editorMap.groups[..|old(editorMap.groups)|] == old(editorMap.groups)
      ensures ArtGroup(editorMap.groups[|old(editorMap.groups)|], art, UniqueColors(art), |old(editorMap.images)|)
      ensures editorMap.Snapshot() == old(editorMap.Snapshot()).(images := editorMap.images, groups := editorMap.groups)
    {
      editorMap.groups := editorMap.groups + [NEW_GROUP];
      var colors := GetUniqueColors(art);
      var groups := GroupColors(colors);
      var images := ColorGroupsToImages(groups);
      AddColorLayers(colors, groups, images);
      artLoaded := false;
    }

    /** AddTileart's loop: for each colour group, its image and a layer drawing the art with it join the map and its last group. */
    method AddColorLayers(colors: seq<Rgba>, groups: seq<seq<Rgba>>, images: seq<ImageInfo>)
      requires ValidImage(art) && editorMap.groups != [] && editorMap.groups[|editorMap.groups| - 1] == NEW_GROUP
      requires |images| == |groups|
      requires forall k :: 0 <= k < |groups| ==> groups[k] == ColorGroup(colors, k) && ShowsGroup(images[k], groups[k])
      modifies editorMap
      ensures |editorMap.images| == |old(editorMap.images)| + |groups|
      ensures editorMap.images[..|old(editorMap.images)|] == old(editorMap.images)
      ensures ArtImages(editorMap.images[|old(editorMap.images)|..], artName, colors)
      ensures |editorMap.groups| == |old(editorMap.groups)|
      ensures editorMap.groups[..|editorMap.groups| - 1] == old(editorMap.groups)[..|editorMap.groups| - 1]
      ensures editorMap.groups[|editorMap.groups| - 1] == NEW_GROUP.(layers := editorMap.groups[|editorMap.groups| - 1].layers)
      ensures |editorMap.groups[|editorMap.groups| - 1].layers| == |groups|
      ensures ArtLayers(editorMap.groups[|editorMap.groups| - 1].layers, art, colors, |old(editorMap.images)|)
      ensures editorMap.Snapshot() == old(editorMap.Snapshot()).(images := editorMap.images, groups := editorMap.groups)
    {
      var n0, g := |editorMap.images|, |editorMap.groups| - 1;
      ghost var added: seq<Image> := [];
      ghost var layers: seq<Layer> := [];
      for k := 0 to |images|
        invariant editorMap.images == old(editorMap.images) + added && |added| == k
        invariant ArtImages(added, artName, colors)
        invariant editorMap.groups == old(editorMap.groups)[g := NEW_GROUP.(layers := layers)] && |layers| == k
        invariant ArtLayers(layers, art, colors, n0)
        invariant editorMap.Snapshot() == old(editorMap.Snapshot()).(images := editorMap.images, groups := editorMap.groups)
      {
        AddColorLayer(g, k, colors, groups[k], images[k]);
        ArtImagesSnoc(added, editorMap.images[n0 + k], artName, colors);
        ArtLayersSnoc(layers, editorMap.groups[g].layers[k], art, colors, n0);
        added := added + [editorMap.images[n0 + k]];
        layers := layers + [editorMap.groups[g].layers[k]];
        assert editorMap.groups[g].layers == layers;
      }
      assert editorMap.images[n0..] == added;
    }

    /**
     * One pass of AddTileart's loop: the image of colour group k and a layer
     * using it join the map, and the layer's tiles index the art's pixels.
     */
    method AddColorLayer(g: nat, k: nat, colors: seq<Rgba>, group: seq<Rgba>, info: ImageInfo)
      requires ValidImage(art) && g < |editorMap.groups| && |editorMap.groups[g].layers| == k
      requires group == ColorGroup(colors, k) && ShowsGroup(info, group)
      modifies editorMap
      ensures |editorMap.groups| == |old(editorMap.groups)|
      ensures |editorMap.groups[g].layers| == k + 1 && editorMap.groups[g].layers[..k] == old(editorMap.groups[g].layers)
      ensures editorMap.groups == old(editorMap.groups)[g := old(editorMap.groups)[g].(layers := editorMap.groups[g].layers)]
      ensures editorMap.images == old(editorMap.images) + [EditorImage(info, ImageName(artName, k + 1))]
      ensures ShowsArtGroup(editorMap.images[|old(editorMap.images)|], artName, colors, k)
      ensures IndexesArt(editorMap.groups[g].layers[k], art, colors, k, |old(editorMap.images)|)
      ensures editorMap.Snapshot() == old(editorMap.Snapshot()).(images := editorMap.images, groups := editorMap.groups)
    {
      var layer := AddLayerWithImage(editorMap, g, art.width, art.height, info, ImageName(artName, k + 1));
      layer := SetTilelayerIndices(layer, group, art);
      SetLastLayer(g, layer);
    }

    /** The layer just added to group g takes its tile indices (the group holds the same layer object the caller fills). */
    method SetLastLayer(g: nat, layer: Layer)
      requires g < |editorMap.groups| && editorMap.groups[g].layers != []
      modifies editorMap
      ensures editorMap.groups == old(editorMap.groups)[g := old(editorMap.groups)[g].(layers := old(editorMap.groups)[g].layers[|old(editorMap.groups)[g].layers| - 1 := layer])]
      ensures editorMap.Snapshot() == old(editorMap.Snapshot()).(groups := editorMap.groups)
    {
      var ls := editorMap.groups[g].layers;
      editorMap.groups := editorMap.groups[g := editorMap.groups[g].(layers := ls[|ls| - 1 := layer])];
    }

    /**
     * TileartCheckColors: with the new images the editorMap would reach 64 images
     * and the import is refused, its image released; more than one colour
     * group asks first; otherwise the tile art is added.
     */
    method TileartCheckColors() returns (outcome: TileartOutcome)
      requires artLoaded && ValidImage(art)
      modifies this, editorMap
      ensures art == old(art) && artName == old(artName)
      ensures outcome == CheckColors(|old(editorMap.images)|, |UniqueColors(art)|)
      ensures outcome == TooManyColors ==> popup == PixelartTooManyColors && !artLoaded && editorMap.Snapshot() == old(editorMap.Snapshot())
      ensures outcome == ManyColors ==> popup == PixelartManyColors && artLoaded && editorMap.Snapshot() == old(editorMap.Snapshot())
      ensures outcome == Added ==>
                popup == old(popup) && !artLoaded && TileartAdded(old(editorMap.Snapshot()), editorMap.Snapshot(), art, artName)
    {
      var colors := GetUniqueColors(art);
      var numGroups := NumGroups(|colors|);
      if |editorMap.images| + numGroups >= MAX_IMAGES {
        popup := PixelartTooManyColors;
        artLoaded := false;
        outcome := TooManyColors;
      } else if numGroups > 1 {
        popup := PixelartManyColors;
        outcome := ManyColors;
      } else {
        AddTileart();
        outcome := Added;
      }
    }

    /**
     * CallbackAddTileart: `png` is the decoded file, if it could be
     * decoded, and `name` its file name without directory or extension.
     * Images of more than 10000 pixels are refused with a pop-up.
     */
    method CallbackAddTileart(png: Option<ImageInfo>, name: seq<byte>) returns (outcome: TileartOutcome)
      requires png.Some? ==> ValidImage(png.value)
      modifies this, editorMap
      ensures outcome == ImportOutcome(png, |old(editorMap.images)|)
      ensures outcome == LoadFailed ==> editorMap.Snapshot() == old(editorMap.Snapshot()) && popup == old(popup)
      ensures outcome == BigImage ==> popup == PixelartBigImage && artLoaded && editorMap.Snapshot() == old(editorMap.Snapshot())
      ensures outcome == TooManyColors ==> popup == PixelartTooManyColors && !artLoaded && editorMap.Snapshot() == old(editorMap.Snapshot())
      ensures outcome == ManyColors ==> popup == PixelartManyColors && artLoaded && editorMap.Snapshot() == old(editorMap.Snapshot())
      ensures png.Some? ==> art == png.value && artName == name
      ensures outcome == Added ==>
                popup == old(popup) && !artLoaded && |editorMap.images| < MAX_IMAGES
                && TileartAdded(old(editorMap.Snapshot()), editorMap.Snapshot(), png.value, name)
    {
      if png.None? {
        return LoadFailed;
      }
      art, artLoaded := png.value, true;
      artName := name;
      if art.width * art.height > MAX_ART_PIXELS {
        popup := PixelartBigImage;
        return BigImage;
      }
      outcome := TileartCheckColors();
    }
  }
}
