/**
 * What CEditorMap::Load rebuilds from a data file, and what
 * PerformSanityChecks then changes, as functions of the file.  Each list is
 * folded from the front, so that a loop over the first `i` items has built
 * exactly the fold over the first `i` items.
 */
module LoadSpec {
  import opened Container
  import opened MapItems
  import opened MapModel

  /** A name block: the C string in it, or nothing when the reference names no block (a null pointer). */
  function NameAt(f: DataFile, ref: int): Option<seq<byte>>
  {
    if 0 <= ref < |f.blocks| then Some(CStr(f.blocks[ref])) else None
  }

  function NonNeg(v: int): nat
  {
    if v < 0 then 0 else v
  }

  // ---------------------------------------------------------------------
  // Map info and settings

  /** The loader's state across info items; `stopped` once the loop has hit a `break`. */
  datatype InfoState = InfoState(info: MapInfo, settings: seq<seq<byte>>, stopped: bool)

  function InfoString(f: DataFile, ref: int, current: seq<byte>): seq<byte>
  {
    if ref > -1 then CStr(f.GetData(ref)) else current
  }

  /**
   * One info item: only items with id 0 are read; strings whose reference is
   * present replace the current ones; the settings of a version-1 item of
   * full size are split and appended, and anything else ends the loop.
   */
  function InfoStep(f: DataFile, st: InfoState, it: Item, itemSize: int): InfoState
  {
    if st.stopped || it.id != 0 then st
    else
      var d := it.data;
      var info := MapInfo(
        InfoString(f, Word(d, INFO_AUTHOR), st.info.author),
        InfoString(f, Word(d, INFO_MAP_VERSION), st.info.version),
        InfoString(f, Word(d, INFO_CREDITS), st.info.credits),
        InfoString(f, Word(d, INFO_LICENSE), st.info.license));
      if Word(d, 0) != INFO_VERSION || itemSize < 4 * INFO_WORDS then InfoState(info, st.settings, true)
      else if !(Word(d, INFO_SETTINGS) > -1) then InfoState(info, st.settings, true)
      else InfoState(info, st.settings + SplitSettings(f.GetData(Word(d, INFO_SETTINGS))), false)
  }

  function InfoFold(f: DataFile, st: InfoState, its: seq<Item>, itemSize: int): InfoState
  {
    if its == [] then st
    else InfoStep(f, InfoFold(f, st, its[..|its| - 1], itemSize), its[|its| - 1], itemSize)
  }

  /** The byte size the loader checks every info item against: that of the first info item. */
  function InfoItemSize(its: seq<Item>): int
  {
    if its == [] then 0 else 4 * |its[0].data|
  }

  function LoadInfo(f: DataFile): InfoState
  {
    var its := f.GetType(InfoType);
    InfoFold(f, InfoState(EMPTY_INFO, [], false), its, InfoItemSize(its))
  }

  // ---------------------------------------------------------------------
  // Images and sounds

  /** "mapres/" and ".png", the path an external image is looked up under. */
  const MAPRES_DIR: seq<byte> := [109, 97, 112, 114, 101, 115, 47]
  const PNG_SUFFIX: seq<byte> := [46, 112, 110, 103]

  function ImageFormatOf(d: seq<int>, svc: Services): ImageFormat
  {
    if Word(d, 0) < IMAGE_V2_VERSION then FormatRGBA else svc.formatFromInt(Word(d, IMAGE_FORMAT))
  }

  predicate IsEmbeddable(format: ImageFormat)
  {
    format == FormatRGB || format == FormatRGBA
  }

  /**
   * One image item: an external image, or one in a format other than RGB and
   * RGBA, is decoded from the image directory (and marked external on
   * success); any other image copies its size, format and pixel bytes.
   */
  function LoadImage(f: DataFile, it: Item, svc: Services): Image
  {
    var d := it.data;
    var nameRef := NameAt(f, Word(d, IMAGE_NAME));
    var pathName := if nameRef.Some? then nameRef.value else [];
    var external := Word(d, IMAGE_EXTERNAL);
    var format := ImageFormatOf(d, svc);
    var img :=
      if external != 0 || !IsEmbeddable(format) then
        match svc.loadPng(MAPRES_DIR + pathName + PNG_SUFFIX)
        case Some(png) => png.(external := 1)
        case None => EMPTY_IMAGE.(external := external)
      else
        var w := Word(d, IMAGE_WIDTH);
        var h := Word(d, IMAGE_HEIGHT);
        Image(w, h, format, external, [], Fit(f.GetData(Word(d, IMAGE_DATA)), Area(w, h) * PixelSize(format), 0));
    if nameRef.Some? then img.(name := nameRef.value) else img
  }

  function LoadImages(f: DataFile, its: seq<Item>, svc: Services): (r: seq<Image>)
    ensures |r| == |its|
  {
    if its == [] then [] else LoadImages(f, its[..|its| - 1], svc) + [LoadImage(f, its[|its| - 1], svc)]
  }

  /** One sound item: an external sound is read by its name, an embedded one copies its declared number of bytes. */
  function LoadSound(f: DataFile, it: Item, svc: Services): Sound
  {
    var d := it.data;
    var nameRef := NameAt(f, Word(d, SOUND_NAME));
    var name := if nameRef.Some? then nameRef.value else [];
    var data :=
      if Word(d, SOUND_EXTERNAL) != 0 then
        (match svc.readFile(name) case Some(b) => b case None => [])
      else Fit(f.GetData(Word(d, SOUND_DATA)), NonNeg(Word(d, SOUND_DATA_SIZE)), 0);
    Sound(name, data)
  }

  function LoadSounds(f: DataFile, its: seq<Item>, svc: Services): (r: seq<Sound>)
    ensures |r| == |its|
  {
    if its == [] then [] else LoadSounds(f, its[..|its| - 1], svc) + [LoadSound(f, its[|its| - 1], svc)]
  }

  // ---------------------------------------------------------------------
  // Tile layers

  const WHITE := Color4(255, 255, 255, 255)

  /** A freshly constructed tile layer of the given kind: empty tiles and, for a physics layer, an empty side array. */
  function NewTilesLayer(w: int, h: int, kind: TileKind): (l: Layer)
    ensures l.TilesLayer? && l.width == w && l.height == h && l.kind == kind && |l.tiles| == Area(w, h)
  {
    var n := Area(w, h);
    var side := SideTiles(
      if kind.tele then seq(n, _ => TeleTile(0, 0)) else [],
      if kind.speedup then seq(n, _ => SpeedupTile(0, 0, 0, 0)) else [],
      if kind.switch then seq(n, _ => SwitchTile(0, 0, 0, 0)) else [],
      if kind.tune then seq(n, _ => TuneTile(0, 0)) else []);
    TilesLayer(0, w, h, seq(n, _ => ZERO_TILE), kind, side, -1, WHITE, -1, 0, Zeros(NAME_WORDS), -1, 0, false)
  }

  /**
   * CLayerTiles::ExtractTiles: skip-encoded tiles from version 4 on (CMap's
   * expansion, a collaborator); before that, a plain copy when the block
   * holds all the tiles, else the tiles stay empty.
   */
  function ExtractTiles(version: int, block: seq<byte>, n: nat, svc: Services): (r: seq<Tile>)
    ensures |r| == n
  {
    if version >= TILE_SKIP_MIN_VERSION then Fit(svc.expandSkipTiles(block, n), n, ZERO_TILE)
    else if |block| >= TILE_BYTES * n then Fit(DecodeAll(block, n, TILE_BYTES, BytesTile), n, ZERO_TILE)
    else seq(n, _ => ZERO_TILE)
  }

  function TeleIndex(r: EntityRules, t: TeleTile): byte
  {
    if r.isValidTele(t.typ) then t.typ else 0
  }

  function SpeedupIndex(r: EntityRules, t: SpeedupTile): byte
  {
    if r.isValidSpeedup(t.typ) && t.force > 0 then t.typ else 0
  }

  function TuneIndex(r: EntityRules, t: TuneTile): byte
  {
    if r.isValidTune(t.typ) then t.typ else 0
  }

  /** Switch types that never reach the tile layer: the weapon range above the crazy shotgun and below the weak dragger, and the one after the fast laser. */
  predicate SwitchSkipped(r: EntityRules, typ: int)
  {
    (typ > r.crazyShotgun + r.entityOffset && typ < r.draggerWeak + r.entityOffset)
    || typ == r.laserOFast + 1 + r.entityOffset
  }

  /** Switch types that are copied unconditionally: armor through door. */
  predicate SwitchCopied(r: EntityRules, typ: int)
  {
    r.armor1 + r.entityOffset <= typ <= r.door + r.entityOffset
  }

  /** The tile a switch tile leaves in the tile layer. */
  function SwitchTileOf(r: EntityRules, t: Tile, sw: SwitchTile): Tile
  {
    if SwitchSkipped(r, sw.typ) then t
    else if SwitchCopied(r, sw.typ) || r.isValidSwitch(sw.typ) then t.(index := sw.typ, flags := sw.flags)
    else t
  }

  /** A game layer saved with the first tilemap version: every non-empty index shifted by the entity offset, in a byte. */
  function OffsetIndex(t: Tile, offset: int): Tile
  {
    if t.index != 0 then t.(index := (t.index as int + offset) % 0x100) else t
  }

  function DecodeSide<T>(block: seq<byte>, n: nat, size: nat, dec: seq<byte> -> T, pad: T): (r: seq<T>)
    requires size > 0
    ensures |r| == n
  {
    Fit(DecodeAll(block, n, size, dec), n, pad)
  }

  /** The side reference of kind slot `slot` (tele 0 … tune 4), from its legacy offset up to version 2. */
  function SideRef(d: seq<int>, slot: int): int
  {
    if Word(d, LAYER_ITEM_VERSION) <= 2 then Word(d, TM_LEGACY_TELE + slot) else Word(d, TM_TELE + slot)
  }

  /** The tiles and side array of a tile layer, read from its blocks. */
  function TilesContent(f: DataFile, d: seq<int>, l: Layer, svc: Services): Layer
    requires l.TilesLayer? && |l.tiles| == Area(l.width, l.height)
  {
    var r := svc.rules;
    var version := Word(d, LAYER_ITEM_VERSION);
    var n := Area(l.width, l.height);
    if l.kind.tele then
      var b := f.GetData(SideRef(d, 0));
      if |b| >= TELE_TILE_BYTES * n then
        var side := DecodeSide(b, n, TELE_TILE_BYTES, BytesTele, TeleTile(0, 0));
        l.(side := l.side.(tele := side), tiles := seq(n, i requires 0 <= i < n => l.tiles[i].(index := TeleIndex(r, side[i]))))
      else l
    else if l.kind.speedup then
      var b := f.GetData(SideRef(d, 1));
      if |b| >= SPEEDUP_TILE_BYTES * n then
        var side := DecodeSide(b, n, SPEEDUP_TILE_BYTES, BytesSpeedup, SpeedupTile(0, 0, 0, 0));
        l.(side := l.side.(speedup := side), tiles := seq(n, i requires 0 <= i < n => l.tiles[i].(index := SpeedupIndex(r, side[i]))))
      else l
    else if l.kind.front then
      l.(tiles := ExtractTiles(version, f.GetData(SideRef(d, 2)), n, svc))
    else if l.kind.switch then
      var b := f.GetData(SideRef(d, 3));
      if |b| >= SWITCH_TILE_BYTES * n then
        var side := DecodeSide(b, n, SWITCH_TILE_BYTES, BytesSwitch, SwitchTile(0, 0, 0, 0));
        l.(side := l.side.(switch := side), tiles := seq(n, i requires 0 <= i < n => SwitchTileOf(r, l.tiles[i], side[i])))
      else l
    else if l.kind.tune then
      var b := f.GetData(SideRef(d, 4));
      if |b| >= TUNE_TILE_BYTES * n then
        var side := DecodeSide(b, n, TUNE_TILE_BYTES, BytesTune, TuneTile(0, 0));
        l.(side := l.side.(tune := side), tiles := seq(n, i requires 0 <= i < n => l.tiles[i].(index := TuneIndex(r, side[i]))))
      else l
    else
      var tiles := ExtractTiles(version, f.GetData(Word(d, TM_DATA)), n, svc);
      if l.kind.game && version == TILEMAP_VERSION_1 then
        l.(tiles := seq(n, i requires 0 <= i < n => OffsetIndex(tiles[i], r.entityOffset)))
      else l.(tiles := tiles)
  }

  /** The layer built from a tilemap item, before its tiles are read. */
  function TilesHeader(d: seq<int>): (l: Layer)
    ensures l.TilesLayer? && |l.tiles| == Area(l.width, l.height)
  {
    var kind := KindOfFlags(Word(d, TM_FLAGS));
    var l0 := NewTilesLayer(Word(d, TM_WIDTH), Word(d, TM_HEIGHT), kind);
    var l1 :=
      if kind == PLAIN_KIND then
        l0.(color := Color4(Word(d, TM_COLOR), Word(d, TM_COLOR + 1), Word(d, TM_COLOR + 2), Word(d, TM_COLOR + 3)),
            colorEnv := Word(d, TM_COLOR_ENV), colorEnvOffset := Word(d, TM_COLOR_ENV_OFFSET))
      else l0;
    l1.(flags := Word(d, LAYER_FLAGS), image := Word(d, TM_IMAGE),
        name := if Word(d, LAYER_ITEM_VERSION) >= 3 then Slice(d, TM_NAME, NAME_WORDS) else l1.name)
  }

  function LoadTiles(f: DataFile, d: seq<int>, svc: Services): Layer
  {
    TilesContent(f, d, TilesHeader(d), svc)
  }

  // ---------------------------------------------------------------------
  // Quad and sound layers

  /** An image or sound reference outside [-1, count) becomes -1. */
  function FixRef(ref: int, count: int): (r: int)
    ensures -1 <= r && (count >= 0 ==> r < count) && (r != -1 ==> r == ref)
  {
    if ref < -1 || ref >= count then -1 else ref
  }

  function LoadQuads(f: DataFile, d: seq<int>, nImages: int): Layer
  {
    var recs := Records(f.GetDataSwapped(Word(d, QL_DATA)), NonNeg(Word(d, QL_NUM)), QUAD_WORDS);
    QuadsLayer(Word(d, LAYER_FLAGS), FixRef(Word(d, QL_IMAGE), nImages),
               if Word(d, LAYER_ITEM_VERSION) >= 2 then Slice(d, QL_NAME, NAME_WORDS) else Zeros(NAME_WORDS),
               seq(|recs|, k requires 0 <= k < |recs| => Quad(recs[k])))
  }

  /** The source of an old sound layer: panning on, no falloff, a circle whose radius is the old falloff distance. */
  function UpgradeSource(o: SoundSourceV0): SoundSource
  {
    SoundSource(o.posX, o.posY, o.loop, 1, o.timeDelay, 0, o.posEnv, o.posEnvOffset, o.soundEnv, o.soundEnvOffset,
                SHAPE_CIRCLE, o.falloffDistance, 0)
  }

  predicate SoundsVersionOk(d: seq<int>)
  {
    1 <= Word(d, LAYER_ITEM_VERSION) <= SOUNDS_VERSION
  }

  function LoadSoundsLayer(f: DataFile, d: seq<int>, nSounds: int, deprecated: bool): Layer
  {
    var data := f.GetDataSwapped(Word(d, QL_DATA));
    var n := NonNeg(Word(d, QL_NUM));
    var sources :=
      if deprecated then
        var recs := Records(data, n, SOURCE_V0_WORDS);
        seq(n, k requires 0 <= k < n => UpgradeSource(WordsSourceV0(recs[k])))
      else
        var recs := Records(data, n, SOURCE_WORDS);
        seq(n, k requires 0 <= k < n => WordsSource(recs[k]));
    SoundsLayer(Word(d, LAYER_FLAGS), FixRef(Word(d, QL_IMAGE), nSounds), Slice(d, QL_NAME, NAME_WORDS), sources)
  }

  /** A layer item: nothing for a sound layer of an unknown version or an unknown layer type. */
  function LoadLayer(f: DataFile, it: Item, nImages: int, nSounds: int, svc: Services): Option<Layer>
  {
    var d := it.data;
    var t := Word(d, LAYER_TYPE);
    if t == LAYERTYPE_TILES then Some(LoadTiles(f, d, svc))
    else if t == LAYERTYPE_QUADS then Some(LoadQuads(f, d, nImages))
    else if (t == LAYERTYPE_SOUNDS || t == LAYERTYPE_SOUNDS_DEPRECATED) && SoundsVersionOk(d) then
      Some(LoadSoundsLayer(f, d, nSounds, t == LAYERTYPE_SOUNDS_DEPRECATED))
    else None
  }

  // ---------------------------------------------------------------------
  // Groups

  /** The layer items at StartLayer + l for l < n, in order; an index outside the layer items yields nothing. */
  function LoadGroupLayers(f: DataFile, layerItems: seq<Item>, start: int, n: nat, nImages: int, nSounds: int, svc: Services): seq<Layer>
  {
    KeptLayers(LayerResults(f, layerItems, nImages, nSounds, svc), start, n)
  }

  /** What each layer item loads to. */
  function LayerResults(f: DataFile, layerItems: seq<Item>, nImages: int, nSounds: int, svc: Services): seq<Option<Layer>>
  {
    seq(|layerItems|, j requires 0 <= j < |layerItems| => LoadLayer(f, layerItems[j], nImages, nSounds, svc))
  }

  /** The layers among results[start + l] for l < n, in order; an index outside `results` yields nothing. */
  function KeptLayers(results: seq<Option<Layer>>, start: int, n: nat): seq<Layer>
  {
    if n == 0 then []
    else
      var pre := KeptLayers(results, start, n - 1);
      match ResultAt(results, start + n - 1)
      case Some(l) => pre + [l]
      case None => pre
  }

  /** The layer read from layer item idx, if there is such an item and it yields a layer. */
  function ResultAt(results: seq<Option<Layer>>, idx: int): Option<Layer>
  {
    if 0 <= idx < |results| then results[idx] else None
  }

  predicate GroupVersionOk(d: seq<int>)
  {
    1 <= Word(d, 0) <= GROUP_VERSION
  }

  /** The group fields of a group item: clipping from version 2, the name from version 3. */
  function GroupHeader(d: seq<int>, ex: Option<seq<int>>, svc: Services): Group
  {
    var g0 := NEW_GROUP.(offsetX := Word(d, GROUP_OFFSET_X), offsetY := Word(d, GROUP_OFFSET_Y),
                         parallaxX := Word(d, GROUP_PARALLAX_X), parallaxY := Word(d, GROUP_PARALLAX_Y));
    var g1 :=
      if Word(d, 0) >= 2 then
        g0.(useClipping := Word(d, GROUP_USE_CLIPPING), clipX := Word(d, GROUP_CLIP_X), clipY := Word(d, GROUP_CLIP_Y),
            clipW := Word(d, GROUP_CLIP_W), clipH := Word(d, GROUP_CLIP_H))
      else g0;
    var g2 := if Word(d, 0) >= 3 then g1.(name := Slice(d, GROUP_NAME, NAME_WORDS)) else g1;
    g2.(parallaxZoom := svc.parallaxZoom(d, ex))
  }

  function ExData(exItems: seq<Item>, g: int): Option<seq<int>>
  {
    if 0 <= g < |exItems| then Some(exItems[g].data) else None
  }

  function LoadGroup(f: DataFile, g: int, gi: Item, nImages: int, nSounds: int, svc: Services): Group
  {
    var d := gi.data;
    GroupHeader(d, ExData(f.GetType(GroupExType), g), svc).(
      layers := LoadGroupLayers(f, f.GetType(LayerType), Word(d, GROUP_START_LAYER), NonNeg(Word(d, GROUP_NUM_LAYERS)), nImages, nSounds, svc))
  }

  /** The groups of the first `n` group items; a group item of an unknown version adds no group. */
  function LoadGroups(f: DataFile, n: nat, nImages: int, nSounds: int, svc: Services): seq<Group>
    requires n <= |f.GetType(GroupType)|
  {
    if n == 0 then []
    else
      var pre := LoadGroups(f, n - 1, nImages, nSounds, svc);
      var gi := f.GetType(GroupType)[n - 1];
      if GroupVersionOk(gi.data) then pre + [LoadGroup(f, n - 1, gi, nImages, nSounds, svc)] else pre
  }

  // ---------------------------------------------------------------------
  // Envelopes

  /**
   * Where envelope points are read from.  When some envelope has version 3
   * or above, the points item holds 22-word records (a point followed by its
   * tangents); otherwise it holds 6-word points, and the tangents come from
   * the bezier item when that holds as many records.  CMapBasedEnvelopePointAccess
   * is not part of this model; this is how it reads DDNet map files.
   */
  datatype PointAccess = PointAccess(points: Option<seq<int>>, beziers: Option<seq<int>>, combined: Option<seq<int>>, count: int)

  const COMBINED_POINT_WORDS := ENV_POINT_WORDS + BEZIER_WORDS

  function FirstData(f: DataFile, t: ItemType): Option<seq<int>>
  {
    var its := f.GetType(t);
    if its == [] then None else Some(its[0].data)
  }

  function MakePointAccess(f: DataFile): PointAccess
  {
    var envs := f.GetType(EnvelopeType);
    var pts := FirstData(f, EnvPointsType);
    var size := if pts.Some? then |pts.value| else 0;
    if exists k :: 0 <= k < |envs| && Word(envs[k].data, 0) >= 3 then
      PointAccess(None, None, pts, size / COMBINED_POINT_WORDS)
    else
      var count := size / ENV_POINT_WORDS;
      var bz := FirstData(f, EnvPointsBezierType);
      PointAccess(pts, if bz.Some? && |bz.value| / BEZIER_WORDS == count then bz else None, None, count)
  }

  function GetPoint(pa: PointAccess, i: int): Option<seq<int>>
  {
    if i < 0 || i >= pa.count then None
    else if pa.points.Some? then Some(Slice(pa.points.value, ENV_POINT_WORDS * i, ENV_POINT_WORDS))
    else if pa.combined.Some? then Some(Slice(pa.combined.value, COMBINED_POINT_WORDS * i, ENV_POINT_WORDS))
    else None
  }

  function GetBezier(pa: PointAccess, i: int): Option<seq<int>>
  {
    if i < 0 || i >= pa.count then None
    else if pa.beziers.Some? then Some(Slice(pa.beziers.value, BEZIER_WORDS * i, BEZIER_WORDS))
    else if pa.combined.Some? then Some(Slice(pa.combined.value, COMBINED_POINT_WORDS * i + ENV_POINT_WORDS, BEZIER_WORDS))
    else None
  }

  const ZERO_POINT := EnvPoint(0, 0, Zeros(4), NO_TANGENTS)

  /** Point `i` of the file, over an empty point: its stored fields if present, then its tangents if present. */
  function LoadPoint(pa: PointAccess, i: int): EnvPoint
  {
    var p1 := match GetPoint(pa, i)
      case Some(ws) => ZERO_POINT.(time := Word(ws, 0), curveType := Word(ws, 1), values := Slice(ws, 2, 4))
      case None => ZERO_POINT;
    match GetBezier(pa, i)
    case Some(bs) => p1.(bezier := WordsBezier(bs))
    case None => p1
  }

  function LoadEnvelope(pa: PointAccess, it: Item): Envelope
  {
    var d := it.data;
    var n := NonNeg(Word(d, ENV_NUM_POINTS));
    var start := Word(d, ENV_START_POINT);
    Envelope(Word(d, ENV_CHANNELS),
             seq(n, p => LoadPoint(pa, start + p)),
             if Word(d, 0) >= ENVELOPE_SYNC_VERSION then Word(d, ENV_SYNCHRONIZED) != 0 else false,
             if Word(d, ENV_NAME) != -1 then Slice(d, ENV_NAME, ENV_NAME_WORDS) else Zeros(ENV_NAME_WORDS))
  }

  function LoadEnvelopes(pa: PointAccess, its: seq<Item>): (r: seq<Envelope>)
    ensures |r| == |its|
  {
    if its == [] then [] else LoadEnvelopes(pa, its[..|its| - 1]) + [LoadEnvelope(pa, its[|its| - 1])]
  }

  // ---------------------------------------------------------------------
  // Automapper configs

  /** The layer an automapper item may configure: one that exists and is a plain tile layer. */
  predicate AutomapperTarget(groups: seq<Group>, d: seq<int>)
  {
    var g := Word(d, AM_GROUP);
    var l := Word(d, AM_LAYER);
    Word(d, 0) == AUTOMAPPER_VERSION && 0 <= g < |groups| && 0 <= l < |groups[g].layers|
    && groups[g].layers[l].TilesLayer? && groups[g].layers[l].kind == PLAIN_KIND
  }

  function ApplyAutomapper(groups: seq<Group>, it: Item): seq<Group>
  {
    var d := it.data;
    if AutomapperTarget(groups, d) then
      var g := Word(d, AM_GROUP);
      var l := Word(d, AM_LAYER);
      var layer := groups[g].layers[l].(autoMapperConfig := Word(d, AM_CONFIG), seed := Word(d, AM_SEED),
                                         autoAutoMap := HasFlag(Word(d, AM_FLAGS), AUTOMAPPER_FLAG_AUTOMATIC));
      groups[g := groups[g].(layers := groups[g].layers[l := layer])]
    else groups
  }

  function ApplyAutomappers(groups: seq<Group>, its: seq<Item>): seq<Group>
  {
    if its == [] then groups else ApplyAutomapper(ApplyAutomappers(groups, its[..|its| - 1]), its[|its| - 1])
  }

  // ---------------------------------------------------------------------
  // The whole load

  /** The map a file of the current version loads into, before the sanity pass. */
  function LoadedMap(f: DataFile, svc: Services): MapData
  {
    var info := LoadInfo(f);
    var images := LoadImages(f, f.GetType(ImageType), svc);
    var sounds := LoadSounds(f, f.GetType(SoundType), svc);
    var groups := LoadGroups(f, |f.GetType(GroupType)|, |images|, |sounds|, svc);
    var envelopes := LoadEnvelopes(MakePointAccess(f), f.GetType(EnvelopeType));
    MapData(info.info, info.settings, images, sounds, ApplyAutomappers(groups, f.GetType(AutoMapperConfigType)), envelopes)
  }

  /** The file's version check: a version item with id 0 holding the current version. */
  predicate VersionOk(f: DataFile)
  {
    var v := FindItem(f.items, VersionType, 0);
    v.Some? && Word(v.value.data, 0) == MAP_VERSION_CURRENT
  }

  // ---------------------------------------------------------------------
  // The sanity pass

  /** An image whose sides are not both multiples of 16 cannot be used by a tile layer. */
  predicate BadImage(img: Image)
  {
    img.width % 16 != 0 || img.height % 16 != 0
  }

  /** The error reported when layer `layer` of group `group` loses image `image`. */
  datatype SanityError = SanityError(image: int, group: int, layer: int)

  predicate UsesImage(l: Layer, i: int)
  {
    l.TilesLayer? && l.image >= 0 && l.image == i
  }

  function DetachImage(l: Layer, i: int): Layer
  {
    if UsesImage(l, i) then l.(image := -1) else l
  }

  /** Errors for the first `n` layers of group `g` that use image `i`. */
  function LayerErrors(ls: seq<Layer>, i: int, g: int, n: nat): seq<SanityError>
    requires n <= |ls|
  {
    if n == 0 then [] else LayerErrors(ls, i, g, n - 1) + (if UsesImage(ls[n - 1], i) then [SanityError(i, g, n - 1)] else [])
  }

  /** Errors for the first `n` groups. */
  function GroupErrors(gs: seq<Group>, i: int, n: nat): seq<SanityError>
    requires n <= |gs|
  {
    if n == 0 then [] else GroupErrors(gs, i, n - 1) + LayerErrors(gs[n - 1].layers, i, n - 1, |gs[n - 1].layers|)
  }

  function DetachAll(gs: seq<Group>, i: int): (r: seq<Group>)
    ensures |r| == |gs|
  {
    seq(|gs|, g requires 0 <= g < |gs| => gs[g].(layers := seq(|gs[g].layers|, l requires 0 <= l < |gs[g].layers| => DetachImage(gs[g].layers[l], i))))
  }

  /** The groups and errors after the first `n` images have been checked. */
  function Sanity(images: seq<Image>, gs: seq<Group>, n: nat): (seq<Group>, seq<SanityError>)
    requires n <= |images|
  {
    if n == 0 then (gs, [])
    else
      var r := Sanity(images, gs, n - 1);
      if BadImage(images[n - 1]) then (DetachAll(r.0, n - 1), r.1 + GroupErrors(r.0, n - 1, |r.0|)) else r
  }

  /** The map after a successful load, sanity pass included, and the errors that pass reported. */
  function LoadResult(f: DataFile, svc: Services): (MapData, seq<SanityError>)
  {
    var m := LoadedMap(f, svc);
    var s := Sanity(m.images, m.groups, |m.images|);
    (m.(groups := s.0), s.1)
  }
}
