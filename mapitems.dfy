/**
 * The map format's records: item kinds and versions, the word layout of each
 * item, the byte layout of the tile records stored in data blocks, and the
 * word layout of quads, sound sources and envelope points.  The layouts and
 * constants are those of the DDNet map format (mapitems.h is not part of this
 * model); the game-entity constants and tile-validity predicates, which that
 * header and the game code define, are parameters (`EntityRules`).
 */
module MapItems {
  import opened Container

  // ---------------------------------------------------------------------
  // Constants

  const MAP_VERSION_CURRENT := 1          // CMapItemVersion::CURRENT_VERSION
  const INFO_VERSION := 1                 // CMapItemInfoSettings
  const IMAGE_VERSION := 1                // CMapItemImage (no format word)
  const IMAGE_V2_VERSION := 2             // CMapItemImage_v2 (format word)
  const SOUND_ITEM_VERSION := 1
  const GROUP_VERSION := 3                // CMapItemGroup::CURRENT_VERSION
  const GROUPEX_VERSION := 1
  const TILEMAP_VERSION := 3              // CMapItemLayerTilemap::CURRENT_VERSION
  const TILE_SKIP_MIN_VERSION := 4        // skip-encoded tiles, read but never written
  const QUADS_VERSION := 2
  const SOUNDS_VERSION := 2               // CMapItemLayerSounds::CURRENT_VERSION
  const ENVELOPE_VERSION := 2             // CMapItemEnvelope::CURRENT_VERSION
  const ENVELOPE_SYNC_VERSION := 2        // CMapItemEnvelope_v2, the first with the synchronized flag
  const AUTOMAPPER_VERSION := 1
  const AUTOMAPPER_FLAG_AUTOMATIC := 1

  const LAYERTYPE_TILES := 2
  const LAYERTYPE_QUADS := 3
  const LAYERTYPE_SOUNDS_DEPRECATED := 9
  const LAYERTYPE_SOUNDS := 10

  const TILESLAYERFLAG_GAME := 1
  const TILESLAYERFLAG_TELE := 2
  const TILESLAYERFLAG_SPEEDUP := 4
  const TILESLAYERFLAG_FRONT := 8
  const TILESLAYERFLAG_SWITCH := 16
  const TILESLAYERFLAG_TUNE := 32

  /** Bit test on a flags word (two's complement), for a flag that is a power of two. */
  predicate HasFlag(flags: int, flag: int)
    requires flag > 0
  {
    (flags / flag) % 2 == 1
  }

  const CURVETYPE_BEZIER := 5
  const SHAPE_CIRCLE := 1

  // sizes of the tile records, in bytes
  const TILE_BYTES := 4
  const TELE_TILE_BYTES := 2
  const SPEEDUP_TILE_BYTES := 6
  const SWITCH_TILE_BYTES := 4
  const TUNE_TILE_BYTES := 2

  // ---------------------------------------------------------------------
  // Item layouts (word offsets)

  // CMapItemInfoSettings
  const INFO_AUTHOR := 1
  const INFO_MAP_VERSION := 2
  const INFO_CREDITS := 3
  const INFO_LICENSE := 4
  const INFO_SETTINGS := 5
  const INFO_WORDS := 6

  // CMapItemImage / CMapItemImage_v2
  const IMAGE_WIDTH := 1
  const IMAGE_HEIGHT := 2
  const IMAGE_EXTERNAL := 3
  const IMAGE_NAME := 4
  const IMAGE_DATA := 5
  const IMAGE_FORMAT := 6

  // CMapItemSound
  const SOUND_EXTERNAL := 1
  const SOUND_NAME := 2
  const SOUND_DATA := 3
  const SOUND_DATA_SIZE := 4

  // CMapItemGroup
  const GROUP_OFFSET_X := 1
  const GROUP_OFFSET_Y := 2
  const GROUP_PARALLAX_X := 3
  const GROUP_PARALLAX_Y := 4
  const GROUP_START_LAYER := 5
  const GROUP_NUM_LAYERS := 6
  const GROUP_USE_CLIPPING := 7
  const GROUP_CLIP_X := 8
  const GROUP_CLIP_Y := 9
  const GROUP_CLIP_W := 10
  const GROUP_CLIP_H := 11
  const GROUP_NAME := 12
  const NAME_WORDS := 3

  // every layer item starts with CMapItemLayer: version, type, flags
  const LAYER_TYPE := 1
  const LAYER_FLAGS := 2
  const LAYER_ITEM_VERSION := 3

  // CMapItemLayerTilemap
  const TM_WIDTH := 4
  const TM_HEIGHT := 5
  const TM_FLAGS := 6
  const TM_COLOR := 7
  const TM_COLOR_ENV := 11
  const TM_COLOR_ENV_OFFSET := 12
  const TM_IMAGE := 13
  const TM_DATA := 14
  const TM_NAME := 15
  const TM_TELE := 18
  const TM_SPEEDUP := 19
  const TM_FRONT := 20
  const TM_SWITCH := 21
  const TM_TUNE := 22
  const TILEMAP_WORDS := 23
  /** Up to version 2 the item had no name, so the side references sat three words earlier. */
  const TM_LEGACY_TELE := 15
  const TM_LEGACY_SPEEDUP := 16
  const TM_LEGACY_FRONT := 17
  const TM_LEGACY_SWITCH := 18
  const TM_LEGACY_TUNE := 19

  // CMapItemLayerQuads / CMapItemLayerSounds
  const QL_NUM := 4
  const QL_DATA := 5
  const QL_IMAGE := 6
  const QL_NAME := 7

  // CMapItemEnvelope
  const ENV_CHANNELS := 1
  const ENV_START_POINT := 2
  const ENV_NUM_POINTS := 3
  const ENV_NAME := 4
  const ENV_NAME_WORDS := 8
  const ENV_SYNCHRONIZED := 12

  // CMapItemAutoMapperConfig
  const AM_GROUP := 1
  const AM_LAYER := 2
  const AM_CONFIG := 3
  const AM_SEED := 4
  const AM_FLAGS := 5

  // records inside items and swapped blocks, in words
  const ENV_POINT_WORDS := 6
  const BEZIER_WORDS := 16
  const QUAD_WORDS := 38
  const SOURCE_WORDS := 13
  const SOURCE_V0_WORDS := 9

  /**
   * MakeVersion: a structure version packed with the structure's size in
   * bytes; version 1 of the tilemap item was tagged this way.
   */
  function MakeVersion(i: int, size: nat): int
  {
    i * 0x1_0000 + size
  }

  lemma {:induction false} MakeVersionSplits(i: int, size: nat)
    requires size < 0x1_0000
    ensures MakeVersion(i, size) / 0x1_0000 == i && MakeVersion(i, size) % 0x1_0000 == size
  {
    var v := MakeVersion(i, size);
    assert v == size + 0x1_0000 * i;
  }

  /** The version word of a game layer written by the first tilemap layout. */
  const TILEMAP_VERSION_1 := MakeVersion(1, 4 * TILEMAP_WORDS)

  // ---------------------------------------------------------------------
  // The game-side definitions the loader consults

  datatype EntityRules = EntityRules(
    entityOffset: int,
    crazyShotgun: int, draggerWeak: int, laserOFast: int, armor1: int, door: int,
    isValidTele: int -> bool, isValidSpeedup: int -> bool,
    isValidSwitch: int -> bool, isValidTune: int -> bool)

  // ---------------------------------------------------------------------
  // Tile records and their bytes

  datatype Tile = Tile(index: byte, flags: byte, skip: byte, reserved: byte)
  datatype TeleTile = TeleTile(number: byte, typ: byte)
  datatype SpeedupTile = SpeedupTile(force: byte, maxSpeed: byte, typ: byte, angle: int)
  datatype SwitchTile = SwitchTile(number: byte, typ: byte, flags: byte, delay: byte)
  datatype TuneTile = TuneTile(number: byte, typ: byte)

  const ZERO_TILE := Tile(0, 0, 0, 0)

  /** Byte `k` of a block; bytes past its end read as 0. */
  function ByteAt(b: seq<byte>, k: int): byte
  {
    if 0 <= k < |b| then b[k] else 0
  }

  function TileBytes(t: Tile): seq<byte> { [t.index, t.flags, t.skip, t.reserved] }
  function BytesTile(b: seq<byte>): Tile { Tile(ByteAt(b, 0), ByteAt(b, 1), ByteAt(b, 2), ByteAt(b, 3)) }

  function TeleBytes(t: TeleTile): seq<byte> { [t.number, t.typ] }
  function BytesTele(b: seq<byte>): TeleTile { TeleTile(ByteAt(b, 0), ByteAt(b, 1)) }

  /** The speedup angle is a 16-bit signed integer, least significant byte first, after one padding byte. */
  function SpeedupBytes(t: SpeedupTile): seq<byte>
  {
    var a := if -0x8000 <= t.angle < 0x8000 then t.angle else 0;
    var u := if a < 0 then a + 0x1_0000 else a;
    [t.force, t.maxSpeed, t.typ, 0, u % 0x100, u / 0x100]
  }
  function BytesSpeedup(b: seq<byte>): SpeedupTile
  {
    var u := ByteAt(b, 4) as int + 0x100 * (ByteAt(b, 5) as int);
    SpeedupTile(ByteAt(b, 0), ByteAt(b, 1), ByteAt(b, 2), if u >= 0x8000 then u - 0x1_0000 else u)
  }
  predicate AngleFits(t: SpeedupTile) { -0x8000 <= t.angle < 0x8000 }

  function SwitchBytes(t: SwitchTile): seq<byte> { [t.number, t.typ, t.flags, t.delay] }
  function BytesSwitch(b: seq<byte>): SwitchTile { SwitchTile(ByteAt(b, 0), ByteAt(b, 1), ByteAt(b, 2), ByteAt(b, 3)) }

  function TuneBytes(t: TuneTile): seq<byte> { [t.number, t.typ] }
  function BytesTune(b: seq<byte>): TuneTile { TuneTile(ByteAt(b, 0), ByteAt(b, 1)) }

  /** An array of records laid out back to back. */
  function EncodeAll<T>(ts: seq<T>, enc: T -> seq<byte>): seq<byte>
  {
    if ts == [] then [] else enc(ts[0]) + EncodeAll(ts[1..], enc)
  }

  lemma {:induction false} MulNext(a: nat, n: nat)
    ensures a * (n + 1) == a + a * n
  {
  }

  lemma {:induction false} EncodeAllLength<T>(ts: seq<T>, enc: T -> seq<byte>, size: nat)
    requires forall t :: t in ts ==> |enc(t)| == size
    ensures |EncodeAll(ts, enc)| == size * |ts|
    decreases |ts|
  {
    if ts != [] {
      var rest := ts[1..];
      assert forall t :: t in rest ==> t in ts;
      EncodeAllLength(rest, enc, size);
      assert |enc(ts[0])| == size;
      MulNext(size, |rest|);
    }
  }

  /** The first `n` records of `size` bytes each; stops early when the block runs out. */
  function DecodeAll<T>(b: seq<byte>, n: nat, size: nat, dec: seq<byte> -> T): (r: seq<T>)
    requires size > 0
    ensures |r| <= n
    decreases n
  {
    if n == 0 || |b| < size then [] else [dec(b[..size])] + DecodeAll(b[size..], n - 1, size, dec)
  }

  lemma {:induction false} DecodeAllLength<T>(b: seq<byte>, n: nat, size: nat, dec: seq<byte> -> T)
    requires size > 0 && |b| >= size * n
    ensures |DecodeAll(b, n, size, dec)| == n
    decreases n
  {
    if n > 0 {
      assert |b[size..]| >= size * (n - 1);
      DecodeAllLength(b[size..], n - 1, size, dec);
    }
  }

  lemma {:induction false} CodecRoundTrip<T>(ts: seq<T>, size: nat, enc: T -> seq<byte>, dec: seq<byte> -> T)
    requires size > 0
    requires forall t :: t in ts ==> |enc(t)| == size && dec(enc(t)) == t
    ensures DecodeAll(EncodeAll(ts, enc), |ts|, size, dec) == ts
    decreases |ts|
  {
    if ts != [] {
      var b := EncodeAll(ts, enc);
      EncodeAllLength(ts[1..], enc, size);
      assert b[..size] == enc(ts[0]);
      assert b[size..] == EncodeAll(ts[1..], enc);
      CodecRoundTrip(ts[1..], size, enc, dec);
    }
  }

  lemma {:induction false} TileRecordsRoundTrip(t: Tile, tt: TeleTile, st: SpeedupTile, sw: SwitchTile, tu: TuneTile)
    requires AngleFits(st)
    ensures |TileBytes(t)| == TILE_BYTES && BytesTile(TileBytes(t)) == t
    ensures |TeleBytes(tt)| == TELE_TILE_BYTES && BytesTele(TeleBytes(tt)) == tt
    ensures |SpeedupBytes(st)| == SPEEDUP_TILE_BYTES && BytesSpeedup(SpeedupBytes(st)) == st
    ensures |SwitchBytes(sw)| == SWITCH_TILE_BYTES && BytesSwitch(SwitchBytes(sw)) == sw
    ensures |TuneBytes(tu)| == TUNE_TILE_BYTES && BytesTune(TuneBytes(tu)) == tu
  {
    var a := st.angle;
    var u := if a < 0 then a + 0x1_0000 else a;
    assert u == u % 0x100 + 0x100 * (u / 0x100);
  }

  /** A block of `n` all-zero tiles decodes to `n` empty tiles. */
  lemma {:induction false} ZeroTilesDecode(n: nat)
    ensures DecodeAll(seq(TILE_BYTES * n, _ => 0), n, TILE_BYTES, BytesTile) == seq(n, _ => ZERO_TILE)
    decreases n
  {
    if n > 0 {
      var b: seq<byte> := seq(TILE_BYTES * n, _ => 0);
      assert b[..TILE_BYTES] == [0, 0, 0, 0];
      assert b[TILE_BYTES..] == seq(TILE_BYTES * (n - 1), _ => 0);
      ZeroTilesDecode(n - 1);
      assert seq(n, _ => ZERO_TILE) == [ZERO_TILE] + seq(n - 1, _ => ZERO_TILE);
    }
  }

  // ---------------------------------------------------------------------
  // Word records: envelope points, quads, sound sources

  datatype Bezier = Bezier(inDeltaX: seq<int>, inDeltaY: seq<int>, outDeltaX: seq<int>, outDeltaY: seq<int>)

  /** CEnvPoint_runtime: the stored point and its bezier tangents. */
  datatype EnvPoint = EnvPoint(time: int, curveType: int, values: seq<int>, bezier: Bezier)

  function Zeros(n: nat): seq<int> { seq(n, _ => 0) }

  const NO_TANGENTS := Bezier(Zeros(4), Zeros(4), Zeros(4), Zeros(4))

  predicate PointShaped(p: EnvPoint)
  {
    |p.values| == 4 && |p.bezier.inDeltaX| == 4 && |p.bezier.inDeltaY| == 4
    && |p.bezier.outDeltaX| == 4 && |p.bezier.outDeltaY| == 4
  }

  /** CEnvPoint: time, curve type, four channel values. */
  function PointWords(p: EnvPoint): seq<int> { [p.time, p.curveType] + p.values }

  /** CEnvPointBezier: in-tangent x and y, then out-tangent x and y, four channels each. */
  function BezierWords(b: Bezier): seq<int> { b.inDeltaX + b.inDeltaY + b.outDeltaX + b.outDeltaY }

  /** The `n` words of `ws` from index `from` on, a word past either end reading as 0. */
  function Slice(ws: seq<int>, from: int, n: nat): (r: seq<int>)
    ensures |r| == n
    ensures forall k :: 0 <= k < n ==> r[k] == Word(ws, from + k)
  {
    if n == 0 then [] else Slice(ws, from, n - 1) + [Word(ws, from + n - 1)]
  }

  function WordsBezier(ws: seq<int>): Bezier
  {
    Bezier(Slice(ws, 0, 4), Slice(ws, 4, 4), Slice(ws, 8, 4), Slice(ws, 12, 4))
  }

  lemma {:induction false} BezierRoundTrip(b: Bezier)
    requires |b.inDeltaX| == 4 && |b.inDeltaY| == 4 && |b.outDeltaX| == 4 && |b.outDeltaY| == 4
    ensures |BezierWords(b)| == BEZIER_WORDS && WordsBezier(BezierWords(b)) == b
  {
    var ws := BezierWords(b);
    assert Slice(ws, 0, 4) == b.inDeltaX;
    assert Slice(ws, 4, 4) == b.inDeltaY;
    assert Slice(ws, 8, 4) == b.outDeltaX;
    assert Slice(ws, 12, 4) == b.outDeltaY;
  }

  /** CQuad: 38 words (corner points, colours, texture coordinates, envelopes), copied verbatim. */
  datatype Quad = Quad(words: seq<int32>)

  /** CSoundSource; the shape is a type word and a two-word union (rectangle width and height, or circle radius). */
  datatype SoundSource = SoundSource(
    posX: int32, posY: int32, loop: int32, pan: int32, timeDelay: int32, falloff: int32,
    posEnv: int32, posEnvOffset: int32, soundEnv: int32, soundEnvOffset: int32,
    shapeType: int32, shapeA: int32, shapeB: int32)

  /** CSoundSource_DEPRECATED, the layout of the old sound layers. */
  datatype SoundSourceV0 = SoundSourceV0(
    posX: int32, posY: int32, loop: int32, timeDelay: int32, falloffDistance: int32,
    posEnv: int32, posEnvOffset: int32, soundEnv: int32, soundEnvOffset: int32)

  function SourceWords(s: SoundSource): seq<int32>
  {
    [s.posX, s.posY, s.loop, s.pan, s.timeDelay, s.falloff, s.posEnv, s.posEnvOffset,
     s.soundEnv, s.soundEnvOffset, s.shapeType, s.shapeA, s.shapeB]
  }

  function W32(ws: seq<int32>, k: int): int32
  {
    if 0 <= k < |ws| then ws[k] else 0
  }

  function WordsSource(ws: seq<int32>): SoundSource
  {
    SoundSource(W32(ws, 0), W32(ws, 1), W32(ws, 2), W32(ws, 3), W32(ws, 4), W32(ws, 5), W32(ws, 6),
                W32(ws, 7), W32(ws, 8), W32(ws, 9), W32(ws, 10), W32(ws, 11), W32(ws, 12))
  }

  function WordsSourceV0(ws: seq<int32>): SoundSourceV0
  {
    SoundSourceV0(W32(ws, 0), W32(ws, 1), W32(ws, 2), W32(ws, 3), W32(ws, 4), W32(ws, 5), W32(ws, 6),
                  W32(ws, 7), W32(ws, 8))
  }

  /** `n` records of `size` words; words past the end of the block read as 0. */
  function Records(ws: seq<int32>, n: nat, size: nat): (r: seq<seq<int32>>)
    ensures |r| == n
    ensures forall k :: 0 <= k < n ==> |r[k]| == size
    decreases n
  {
    if n == 0 then []
    else
      var first := seq(size, k => W32(ws, k));
      [first] + Records(if size <= |ws| then ws[size..] else [], n - 1, size)
  }

  function Flatten(rs: seq<seq<int32>>): seq<int32>
  {
    if rs == [] then [] else rs[0] + Flatten(rs[1..])
  }

  lemma {:induction false} RecordsOfFlatten(rs: seq<seq<int32>>, size: nat)
    requires forall k :: 0 <= k < |rs| ==> |rs[k]| == size
    ensures Records(Flatten(rs), |rs|, size) == rs
    decreases |rs|
  {
    if rs != [] {
      var ws := Flatten(rs);
      FlattenLength(rs[1..], size);
      assert seq(size, k => W32(ws, k)) == rs[0];
      assert ws[size..] == Flatten(rs[1..]);
      RecordsOfFlatten(rs[1..], size);
    }
  }

  lemma {:induction false} FlattenLength(rs: seq<seq<int32>>, size: nat)
    requires forall k :: 0 <= k < |rs| ==> |rs[k]| == size
    ensures |Flatten(rs)| == size * |rs|
    decreases |rs|
  {
    if rs != [] {
      FlattenLength(rs[1..], size);
    }
  }

  lemma {:induction false} SourceRoundTrip(s: SoundSource)
    ensures |SourceWords(s)| == SOURCE_WORDS && WordsSource(SourceWords(s)) == s
  {
  }
}
