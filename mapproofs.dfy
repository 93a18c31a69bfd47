/**
 * What the map format promises across CEditorMap::Save and CEditorMap::Load:
 * each item the saver writes is read back by the loader into what was
 * saved (info strings and settings, images, sounds, tile layers of every
 * kind, groups, envelopes), the running counters the saver keeps give the
 * references the loader follows, and the sanity pass leaves no tile layer
 * on an image it cannot use.
 */
module MapProperties {
  import opened Container
  import opened MapItems
  import opened MapModel
  import opened SaveSpec
  import opened LoadSpec

  // ---------------------------------------------------------------------
  // Info strings and settings

  /** The blocks of `o` are still there, at the same indexes, in a file written later. */
  predicate KeepsBlocks(o: Out, f: DataFile)
  {
    o.blocks <= f.blocks
  }

  lemma {:induction false} StoreKeeps(o: Out, b: seq<byte>, f: DataFile)
    requires KeepsBlocks(Store(o, b), f)
    ensures KeepsBlocks(o, f) && f.blocks[|o.blocks|] == b
  {
    assert Store(o, b).blocks[|o.blocks|] == b;
  }

  /**
   * An info string survives saving and loading: a non-empty one is stored
   * with its NUL and read back up to it; an empty one is written as the
   * absent reference -1, which leaves the loader's empty default.
   */
  lemma {:induction false} InfoStringRoundTrip(o: Out, s: seq<byte>, f: DataFile)
    requires IsCString(s) && KeepsBlocks(StringRef(o, s).0, f)
    ensures StringRef(o, s).1 == -1 <==> s == []
    ensures InfoString(f, StringRef(o, s).1, []) == s
    ensures KeepsBlocks(o, f)
  {
    if s != [] {
      StoreKeeps(o, s + [0], f);
      CStrOfTerminated(s, []);
      assert s + [0] + [] == s + [0];
    }
  }

  /**
   * The info item read on its own by the loader, from its empty start:
   * the four strings come back, the settings are split back into the
   * commands, and the loop ends after this item exactly when there were no
   * settings (their reference is then -1).
   */
  lemma {:induction false} InfoItemRoundTrip(o: Out, info: MapInfo, settings: seq<seq<byte>>, f: DataFile)
    requires IsCString(info.author) && IsCString(info.version) && IsCString(info.credits) && IsCString(info.license)
    requires forall k :: 0 <= k < |settings| ==> IsCString(settings[k])
    requires KeepsBlocks(InfoOut(o, info, settings), f)
    ensures var o' := InfoOut(o, info, settings);
      |o'.items| == |o.items| + 1 && o'.items[..|o.items|] == o.items
      && o'.items[|o.items|].typ == InfoType && o'.items[|o.items|].id == 0 && |o'.items[|o.items|].data| == INFO_WORDS
      && InfoStep(f, InfoState(EMPTY_INFO, [], false), o'.items[|o.items|], 4 * INFO_WORDS)
         == InfoState(info, settings, settings == [])
  {
    var a := StringRef(o, info.author);
    var v := StringRef(a.0, info.version);
    var c := StringRef(v.0, info.credits);
    var l := StringRef(c.0, info.license);
    var s := if settings == [] then (l.0, -1) else (Store(l.0, PackSettings(settings)), |l.0.blocks|);
    assert KeepsBlocks(s.0, f);
    if settings != [] {
      StoreKeeps(l.0, PackSettings(settings), f);
      SettingsRoundTrip(settings);
    }
    InfoStringRoundTrip(c.0, info.license, f);
    InfoStringRoundTrip(v.0, info.credits, f);
    InfoStringRoundTrip(a.0, info.version, f);
    InfoStringRoundTrip(o, info.author, f);
    var o' := InfoOut(o, info, settings);
    assert o'.items[|o.items|] == Item(InfoType, 0, InfoWords(a.1, v.1, c.1, l.1, s.1));
    InfoItemLoads(f, o'.items[|o.items|], info, settings, a.1, v.1, c.1, l.1, s.1);
  }

  /** An info item whose string references read back as the four strings, and whose settings reference as the commands, loads as them. */
  lemma {:induction false} InfoItemLoads(f: DataFile, it: Item, info: MapInfo, settings: seq<seq<byte>>,
                                         author: int, version: int, credits: int, license: int, ref: int)
    requires it.id == 0 && it.data == InfoWords(author, version, credits, license, ref)
    requires InfoString(f, author, []) == info.author && InfoString(f, version, []) == info.version
    requires InfoString(f, credits, []) == info.credits && InfoString(f, license, []) == info.license
    requires settings == [] ==> ref == -1
    requires settings != [] ==> ref >= 0 && SplitSettings(f.GetData(ref)) == settings
    ensures InfoStep(f, InfoState(EMPTY_INFO, [], false), it, 4 * INFO_WORDS) == InfoState(info, settings, settings == [])
  {
    assert [] + settings == settings;
  }

  // ---------------------------------------------------------------------
  // Images and sounds

  /** Pixel j of an RGB image is written as its three bytes followed by an opaque alpha. */
  lemma {:induction false} RgbPixelWidened(rgb: seq<byte>, n: nat, j: nat)
    requires j < n && 3 * n <= |rgb|
    ensures RgbToRgba(rgb, n)[4 * j..4 * j + 4] == rgb[3 * j..3 * j + 3] + [255]
  {
    var r := RgbToRgba(rgb, n);
    assert (4 * j) / 4 == j && (4 * j + 1) / 4 == j && (4 * j + 2) / 4 == j && (4 * j + 3) / 4 == j;
    assert (4 * j) % 4 == 0 && (4 * j + 1) % 4 == 1 && (4 * j + 2) % 4 == 2 && (4 * j + 3) % 4 == 3;
    assert r[4 * j] == rgb[3 * j] && r[4 * j + 1] == rgb[3 * j + 1] && r[4 * j + 2] == rgb[3 * j + 2] && r[4 * j + 3] == 255;
  }

  lemma {:induction false} FitWhole<T>(xs: seq<T>, pad: T)
    ensures Fit(xs, |xs|, pad) == xs
  {
    var r := Fit(xs, |xs|, pad);
    assert forall k :: 0 <= k < |xs| ==> r[k] == xs[k];
  }

  /** The pixel block of an embedded image has four bytes per pixel, and is the image's own data when that already is RGBA of the right size. */
  lemma {:induction false} SavedPixelsRgba(img: Image)
    ensures |SavedPixels(img)| == 4 * Area(img.width, img.height)
    ensures img.format == FormatRGBA && |img.data| == 4 * Area(img.width, img.height) ==> SavedPixels(img) == img.data
  {
    if img.format == FormatRGBA {
      FitWhole(img.data, 0);
    }
  }

  /**
   * An embedded image loads back with its name, size and saved pixels, as
   * RGBA: the saver widens RGB pixels, writes four bytes per pixel for any
   * other format, and writes the image item without a format word, which
   * the loader reads as RGBA.
   */
  lemma {:induction false} EmbeddedImageRoundTrip(o: Out, i: int, img: Image, f: DataFile, svc: Services)
    requires img.external == 0 && IsCString(img.name)
    requires KeepsBlocks(ImageOut(o, i, img), f)
    ensures var o' := ImageOut(o, i, img);
      |o'.items| == |o.items| + 1 && o'.items[..|o.items|] == o.items
      && o'.items[|o.items|].typ == ImageType && o'.items[|o.items|].id == i
      && LoadImage(f, o'.items[|o.items|], svc) == img.(format := FormatRGBA, data := SavedPixels(img))
  {
    var o1 := Store(o, img.name + [0]);
    var o2 := Store(o1, SavedPixels(img));
    StoreKeeps(o1, SavedPixels(img), f);
    StoreKeeps(o, img.name + [0], f);
    CStrOfTerminated(img.name, []);
    assert img.name + [0] + [] == img.name + [0];
    SavedPixelsRgba(img);
    FitWhole(SavedPixels(img), 0);
    var d := ImageOut(o, i, img).items[|o.items|].data;
    assert Word(d, IMAGE_NAME) == |o.blocks| && Word(d, IMAGE_DATA) == |o1.blocks| && Word(d, IMAGE_EXTERNAL) == 0;
    assert ImageFormatOf(d, svc) == FormatRGBA;
  }

  /** An external image is saved without pixels and loaded back from the image directory under its name, then marked external. */
  lemma {:induction false} ExternalImageRoundTrip(o: Out, i: int, img: Image, f: DataFile, svc: Services)
    requires img.external != 0 && IsCString(img.name)
    requires KeepsBlocks(ImageOut(o, i, img), f)
    ensures var o' := ImageOut(o, i, img);
      |o'.items| == |o.items| + 1 && o'.blocks == o.blocks + [img.name + [0]]
      && Word(o'.items[|o.items|].data, IMAGE_DATA) == -1
      && LoadImage(f, o'.items[|o.items|], svc)
         == match svc.loadPng(MAPRES_DIR + img.name + PNG_SUFFIX)
            case Some(png) => png.(external := 1, name := img.name)
            case None => EMPTY_IMAGE.(external := img.external, name := img.name)
  {
    StoreKeeps(o, img.name + [0], f);
    CStrOfTerminated(img.name, []);
    assert img.name + [0] + [] == img.name + [0];
    var d := ImageOut(o, i, img).items[|o.items|].data;
    assert Word(d, IMAGE_NAME) == |o.blocks| && Word(d, IMAGE_EXTERNAL) == img.external;
  }

  /** An embedded sound loads back with its name and all its bytes. */
  lemma {:induction false} SoundRoundTrip(o: Out, i: int, snd: Sound, f: DataFile, svc: Services)
    requires IsCString(snd.name)
    requires KeepsBlocks(SoundOut(o, i, snd), f)
    ensures var o' := SoundOut(o, i, snd);
      |o'.items| == |o.items| + 1 && o'.items[..|o.items|] == o.items
      && o'.items[|o.items|].typ == SoundType && o'.items[|o.items|].id == i
      && LoadSound(f, o'.items[|o.items|], svc) == snd
  {
    var o1 := Store(o, snd.name + [0]);
    StoreKeeps(o1, snd.data, f);
    StoreKeeps(o, snd.name + [0], f);
    CStrOfTerminated(snd.name, []);
    assert snd.name + [0] + [] == snd.name + [0];
    FitWhole(snd.data, 0);
    var d := SoundOut(o, i, snd).items[|o.items|].data;
    assert Word(d, SOUND_NAME) == |o.blocks| && Word(d, SOUND_DATA) == |o1.blocks| && Word(d, SOUND_EXTERNAL) == 0;
    assert Word(d, SOUND_DATA_SIZE) == |snd.data|;
  }

  // ---------------------------------------------------------------------
  // Tile layer kinds

  /** The flags word the saver writes for a layer of one kind makes the loader construct a layer of that kind. */
  lemma {:induction false} KindRoundTrip(k: TileKind)
    requires SingleKind(k)
    ensures KindOfFlags(SaveFlags(k)) == k
    ensures SaveFlags(k) == 0 <==> k == PLAIN_KIND
  {
    assert HasFlag(TILESLAYERFLAG_TELE, TILESLAYERFLAG_GAME) == false;
    assert HasFlag(TILESLAYERFLAG_SPEEDUP, TILESLAYERFLAG_GAME) == false;
    assert HasFlag(TILESLAYERFLAG_SPEEDUP, TILESLAYERFLAG_TELE) == false;
    assert HasFlag(TILESLAYERFLAG_FRONT, TILESLAYERFLAG_SPEEDUP) == false;
    assert HasFlag(TILESLAYERFLAG_SWITCH, TILESLAYERFLAG_FRONT) == false;
    assert HasFlag(TILESLAYERFLAG_TUNE, TILESLAYERFLAG_SWITCH) == false;
  }

  /** The flag of side slot 0 … 4: tele, speedup, front, switch, tune. */
  const SIDE_FLAGS: seq<int> := [TILESLAYERFLAG_TELE, TILESLAYERFLAG_SPEEDUP, TILESLAYERFLAG_FRONT, TILESLAYERFLAG_SWITCH, TILESLAYERFLAG_TUNE]

  /**
   * The tilemap item of a layer: the data reference is the next block;
   * a physics layer other than the game layer gets an all-zero data block
   * and a side reference, the next block again, in the slot of its kind and
   * in no other; the automapper item follows exactly for a plain tile
   * layer, with the group's index and the layer's index inside the group;
   * every counter moves by one item written.
   */
  lemma {:induction false} TilemapItem(s: SaveState, numLayers: int, l: Layer)
    requires l.TilesLayer?
    ensures var o' := TilesOut(s, numLayers, l).0.out;
      |o'.items| == |s.out.items| + (if SaveFlags(l.kind) == 0 then 2 else 1) && o'.items[..|s.out.items|] == s.out.items
    ensures var o' := TilesOut(s, numLayers, l).0.out;
      o'.items[|s.out.items|].typ == LayerType && o'.items[|s.out.items|].id == s.layerCount
      && Word(o'.items[|s.out.items|].data, TM_DATA) == |s.out.blocks|
      && Word(o'.items[|s.out.items|].data, TM_FLAGS) == SaveFlags(l.kind)
    ensures IsPhysics(l.kind) ==>
      TilesOut(s, numLayers, l).0.out.blocks == s.out.blocks + [seq(TILE_BYTES * Area(l.width, l.height), _ => 0), SideBlock(l)]
    ensures !IsPhysics(l.kind) ==>
      TilesOut(s, numLayers, l).0.out.blocks == s.out.blocks + [EncodeAll(Fit(l.tiles, Area(l.width, l.height), ZERO_TILE), TileBytes)]
    ensures var d := TilesOut(s, numLayers, l).0.out.items[|s.out.items|].data;
      forall slot :: 0 <= slot < 5 ==>
        SideRef(d, slot) == if IsPhysics(l.kind) && SaveFlags(l.kind) == SIDE_FLAGS[slot] then |s.out.blocks| + 1 else -1
    ensures SaveFlags(l.kind) == 0 ==>
      TilesOut(s, numLayers, l).0.out.items[|s.out.items| + 1]
      == Item(AutoMapperConfigType, s.automapperCount, AutomapperWords(l, s.groupCount, numLayers))
    ensures var (s', n') := TilesOut(s, numLayers, l);
      s'.layerCount == s.layerCount + 1 && n' == numLayers + 1 && s'.groupCount == s.groupCount
      && s'.automapperCount == s.automapperCount + (if SaveFlags(l.kind) == 0 then 1 else 0)
  {
    var flags := SaveFlags(l.kind);
    var refs := SideRefs(if IsPhysics(l.kind) then flags else 0, |s.out.blocks| + 1);
    var d := TilemapWords(l, flags, |s.out.blocks|, refs);
    var r := TilesOut(s, numLayers, l);
    assert r.0.out.items[|s.out.items|] == Item(LayerType, s.layerCount, d);
    TilemapSideRefs(l, |s.out.blocks|);
    assert IsPhysics(l.kind) ==> r.0.out.blocks == s.out.blocks + [seq(TILE_BYTES * Area(l.width, l.height), _ => 0), SideBlock(l)];
  }

  // ---------------------------------------------------------------------
  // Tile layers read back

  /** A tile layer as the editor builds it: one kind at most, all its tiles, the side array of its kind, a three-word name. */
  predicate WellFormedTiles(l: Layer)
  {
    l.TilesLayer? && SingleKind(l.kind) && |l.tiles| == Area(l.width, l.height) && |l.name| == NAME_WORDS
    && (l.kind.tele ==> |l.side.tele| == |l.tiles|)
    && (l.kind.speedup ==> |l.side.speedup| == |l.tiles| && forall k :: 0 <= k < |l.side.speedup| ==> AngleFits(l.side.speedup[k]))
    && (l.kind.switch ==> |l.side.switch| == |l.tiles|)
    && (l.kind.tune ==> |l.side.tune| == |l.tiles|)
  }

  /** Records written back to back and read back, `n` of them, give the records. */
  lemma {:induction false} RecordsDecode<T>(ts: seq<T>, size: nat, enc: T -> seq<byte>, dec: seq<byte> -> T, pad: T)
    requires size > 0
    requires forall t :: t in ts ==> |enc(t)| == size && dec(enc(t)) == t
    ensures |EncodeAll(ts, enc)| == size * |ts|
    ensures DecodeSide(EncodeAll(ts, enc), |ts|, size, dec, pad) == ts
  {
    EncodeAllLength(ts, enc, size);
    CodecRoundTrip(ts, size, enc, dec);
    FitWhole(ts, pad);
  }

  lemma {:induction false} TilesDecode(ts: seq<Tile>)
    ensures |EncodeAll(ts, TileBytes)| == TILE_BYTES * |ts|
    ensures Fit(DecodeAll(EncodeAll(ts, TileBytes), |ts|, TILE_BYTES, BytesTile), |ts|, ZERO_TILE) == ts
  {
    RecordsDecode(ts, TILE_BYTES, TileBytes, BytesTile, ZERO_TILE);
  }

  /** The layer fields the tilemap item carries: kind, size, flags, image and name, and the colour of a plain layer. */
  lemma {:induction false} TilesHeaderRoundTrip(l: Layer, dataRef: int, refs: seq<int>)
    requires WellFormedTiles(l) && |refs| == 5
    ensures var h := TilesHeader(TilemapWords(l, SaveFlags(l.kind), dataRef, refs));
      h.kind == l.kind && h.width == l.width && h.height == l.height && h.flags == l.flags
      && h.image == l.image && h.name == l.name && h.side == NewTilesLayer(l.width, l.height, l.kind).side
      && (l.kind == PLAIN_KIND ==> h.color == l.color && h.colorEnv == l.colorEnv && h.colorEnvOffset == l.colorEnvOffset)
  {
    var d := TilemapWords(l, SaveFlags(l.kind), dataRef, refs);
    KindRoundTrip(l.kind);
    FitWhole(l.name, 0);
    assert Word(d, TM_FLAGS) == SaveFlags(l.kind) && Word(d, TM_WIDTH) == l.width && Word(d, TM_HEIGHT) == l.height;
    assert Word(d, LAYER_FLAGS) == l.flags && Word(d, TM_IMAGE) == l.image && Word(d, LAYER_ITEM_VERSION) == TILEMAP_VERSION;
    assert Word(d, TM_COLOR) == l.color.r && Word(d, TM_COLOR + 1) == l.color.g && Word(d, TM_COLOR + 2) == l.color.b;
    assert Word(d, TM_COLOR + 3) == l.color.a && Word(d, TM_COLOR_ENV) == l.colorEnv && Word(d, TM_COLOR_ENV_OFFSET) == l.colorEnvOffset;
    assert Slice(d, TM_NAME, NAME_WORDS) == l.name;
  }

  /**
   * A tile layer of any kind loads back from the items and blocks the saver
   * wrote: its kind, size, flags, image and name; all its tiles when it is
   * a plain, game or front layer; the side array of a tele, speedup, switch
   * or tune layer; and the colour of a plain layer.
   */
  lemma {:induction false} TileLayerRoundTrip(s: SaveState, numLayers: int, l: Layer, f: DataFile, svc: Services)
    requires WellFormedTiles(l) && KeepsBlocks(TilesOut(s, numLayers, l).0.out, f)
    ensures var ld := LoadTiles(f, TilesOut(s, numLayers, l).0.out.items[|s.out.items|].data, svc);
      ld.TilesLayer? && ld.kind == l.kind && ld.width == l.width && ld.height == l.height
      && ld.flags == l.flags && ld.image == l.image && ld.name == l.name
      && (l.kind == PLAIN_KIND ==> ld.color == l.color && ld.colorEnv == l.colorEnv && ld.colorEnvOffset == l.colorEnvOffset)
      && (!IsPhysics(l.kind) || l.kind.front ==> ld.tiles == l.tiles)
      && (l.kind.tele ==> ld.side.tele == l.side.tele)
      && (l.kind.speedup ==> ld.side.speedup == l.side.speedup)
      && (l.kind.switch ==> ld.side.switch == l.side.switch)
      && (l.kind.tune ==> ld.side.tune == l.side.tune)
  {
    var o := s.out;
    var o' := TilesOut(s, numLayers, l).0.out;
    var d := o'.items[|o.items|].data;
    TilemapItem(s, numLayers, l);
    var flags := SaveFlags(l.kind);
    assert d == TilemapWords(l, flags, |o.blocks|, SideRefs(if IsPhysics(l.kind) then flags else 0, |o.blocks| + 1));
    if IsPhysics(l.kind) {
      assert o'.blocks[|o.blocks| + 1] == SideBlock(l);
    } else {
      assert o'.blocks[|o.blocks|] == EncodeAll(Fit(l.tiles, Area(l.width, l.height), ZERO_TILE), TileBytes);
    }
    TilemapLoads(f, d, l, svc, |o.blocks|);
  }

  /** The five side references of a tilemap item: the side block in the slot of a physics layer's kind, -1 elsewhere. */
  lemma {:induction false} TilemapSideRefs(l: Layer, dataRef: int)
    requires l.TilesLayer?
    ensures var flags := SaveFlags(l.kind);
      var d := TilemapWords(l, flags, dataRef, SideRefs(if IsPhysics(l.kind) then flags else 0, dataRef + 1));
      && Word(d, LAYER_ITEM_VERSION) == TILEMAP_VERSION && Word(d, TM_DATA) == dataRef && Word(d, TM_FLAGS) == flags
      && forall slot :: 0 <= slot < 5 ==>
           SideRef(d, slot) == if IsPhysics(l.kind) && flags == SIDE_FLAGS[slot] then dataRef + 1 else -1
  {
    var flags := SaveFlags(l.kind);
    var refs := SideRefs(if IsPhysics(l.kind) then flags else 0, dataRef + 1);
    var d := TilemapWords(l, flags, dataRef, refs);
    assert |d| == TILEMAP_WORDS;
    forall slot | 0 <= slot < 5
      ensures SideRef(d, slot) == if IsPhysics(l.kind) && flags == SIDE_FLAGS[slot] then dataRef + 1 else -1
    {
      assert d[TM_TELE + slot] == refs[slot];
    }
  }

  /**
   * A tilemap item as the saver writes it, with its tile block at dataRef
   * and, for a physics layer, its side block right after it, loads back as
   * the layer.
   */
  lemma {:induction false} TilemapLoads(f: DataFile, d: seq<int>, l: Layer, svc: Services, dataRef: int)
    requires WellFormedTiles(l)
    requires var flags := SaveFlags(l.kind);
      d == TilemapWords(l, flags, dataRef, SideRefs(if IsPhysics(l.kind) then flags else 0, dataRef + 1))
    requires IsPhysics(l.kind) ==> f.GetData(dataRef + 1) == SideBlock(l)
    requires !IsPhysics(l.kind) ==> f.GetData(dataRef) == EncodeAll(Fit(l.tiles, Area(l.width, l.height), ZERO_TILE), TileBytes)
    ensures var ld := LoadTiles(f, d, svc);
      ld.TilesLayer? && ld.kind == l.kind && ld.width == l.width && ld.height == l.height
      && ld.flags == l.flags && ld.image == l.image && ld.name == l.name
      && (l.kind == PLAIN_KIND ==> ld.color == l.color && ld.colorEnv == l.colorEnv && ld.colorEnvOffset == l.colorEnvOffset)
      && (!IsPhysics(l.kind) || l.kind.front ==> ld.tiles == l.tiles)
      && (l.kind.tele ==> ld.side.tele == l.side.tele)
      && (l.kind.speedup ==> ld.side.speedup == l.side.speedup)
      && (l.kind.switch ==> ld.side.switch == l.side.switch)
      && (l.kind.tune ==> ld.side.tune == l.side.tune)
  {
    var flags := SaveFlags(l.kind);
    TilemapSideRefs(l, dataRef);
    TilesHeaderRoundTrip(l, dataRef, SideRefs(if IsPhysics(l.kind) then flags else 0, dataRef + 1));
    var h := TilesHeader(d);
    if IsPhysics(l.kind) {
      SideContentRoundTrip(f, d, h, l, svc, dataRef + 1);
    } else {
      FitWhole(l.tiles, ZERO_TILE);
      TilesDecode(l.tiles);
      assert TILEMAP_VERSION != TILEMAP_VERSION_1;
    }
  }

  /**
   * The side array of a tele, speedup, switch or tune layer, and the tiles
   * of a front layer, are read back from the block the side reference of
   * the layer's kind names.
   */
  lemma {:induction false} SideContentRoundTrip(f: DataFile, d: seq<int>, h: Layer, l: Layer, svc: Services, ref: int)
    requires WellFormedTiles(l) && IsPhysics(l.kind)
    requires h.TilesLayer? && |h.tiles| == Area(h.width, h.height)
    requires h.kind == l.kind && h.width == l.width && h.height == l.height
    requires Word(d, LAYER_ITEM_VERSION) == TILEMAP_VERSION
    requires forall slot :: 0 <= slot < 5 ==> SideRef(d, slot) == if SaveFlags(l.kind) == SIDE_FLAGS[slot] then ref else -1
    requires f.GetData(ref) == SideBlock(l)
    ensures var ld := TilesContent(f, d, h, svc);
      && (l.kind.front ==> ld.tiles == l.tiles)
      && (l.kind.tele ==> ld.side.tele == l.side.tele)
      && (l.kind.speedup ==> ld.side.speedup == l.side.speedup)
      && (l.kind.switch ==> ld.side.switch == l.side.switch)
      && (l.kind.tune ==> ld.side.tune == l.side.tune)
  {
    if l.kind.tele {
      assert SideRef(d, 0) == ref;
      FitWhole(l.side.tele, TeleTile(0, 0));
      RecordsDecode(l.side.tele, TELE_TILE_BYTES, TeleBytes, BytesTele, TeleTile(0, 0));
    } else if l.kind.speedup {
      assert SideRef(d, 1) == ref;
      SpeedupDecode(l);
    } else if l.kind.front {
      assert SideRef(d, 2) == ref;
      FitWhole(l.tiles, ZERO_TILE);
      TilesDecode(l.tiles);
    } else if l.kind.switch {
      assert SideRef(d, 3) == ref;
      FitWhole(l.side.switch, SwitchTile(0, 0, 0, 0));
      RecordsDecode(l.side.switch, SWITCH_TILE_BYTES, SwitchBytes, BytesSwitch, SwitchTile(0, 0, 0, 0));
    } else {
      assert SideRef(d, 4) == ref;
      FitWhole(l.side.tune, TuneTile(0, 0));
      RecordsDecode(l.side.tune, TUNE_TILE_BYTES, TuneBytes, BytesTune, TuneTile(0, 0));
    }
  }

  /** The speedup records of a well-formed speedup layer decode back to its speedup array. */
  lemma {:induction false} SpeedupDecode(l: Layer)
    requires WellFormedTiles(l) && l.kind.speedup
    ensures var n := Area(l.width, l.height);
      && |SideBlock(l)| == SPEEDUP_TILE_BYTES * n
      && DecodeSide(SideBlock(l), n, SPEEDUP_TILE_BYTES, BytesSpeedup, SpeedupTile(0, 0, 0, 0)) == l.side.speedup
  {
    FitWhole(l.side.speedup, SpeedupTile(0, 0, 0, 0));
    forall t | t in l.side.speedup
      ensures |SpeedupBytes(t)| == SPEEDUP_TILE_BYTES && BytesSpeedup(SpeedupBytes(t)) == t
    {
      TileRecordsRoundTrip(ZERO_TILE, TeleTile(0, 0), t, SwitchTile(0, 0, 0, 0), TuneTile(0, 0));
    }
    RecordsDecode(l.side.speedup, SPEEDUP_TILE_BYTES, SpeedupBytes, BytesSpeedup, SpeedupTile(0, 0, 0, 0));
  }

  /** A quad layer loads back with all its quads, its image and its name. */
  lemma {:induction false} QuadsLayerRoundTrip(s: SaveState, numLayers: int, l: Layer, f: DataFile, nImages: int, nSounds: int, svc: Services)
    requires l.QuadsLayer? && l.quads != [] && |l.name| == NAME_WORDS && -1 <= l.quadImage < nImages
    requires forall k :: 0 <= k < |l.quads| ==> |l.quads[k].words| == QUAD_WORDS
    requires KeepsBlocks(QuadsOut(s, numLayers, l).0.out, f)
    ensures var o' := QuadsOut(s, numLayers, l).0.out;
      |o'.items| == |s.out.items| + 1 && o'.items[..|s.out.items|] == s.out.items
      && o'.items[|s.out.items|].typ == LayerType && o'.items[|s.out.items|].id == s.layerCount
      && LoadLayer(f, o'.items[|s.out.items|], nImages, nSounds, svc) == Some(l)
  {
    var rs := seq(|l.quads|, k requires 0 <= k < |l.quads| => QuadRecord(l.quads[k]));
    forall k | 0 <= k < |rs|
      ensures |rs[k]| == QUAD_WORDS && Quad(rs[k]) == l.quads[k]
    {
      FitWhole(l.quads[k].words, 0);
    }
    var o' := QuadsOut(s, numLayers, l).0.out;
    StoreKeeps(s.out, EncodeWords(QuadsWords(l.quads)), f);
    WordsRoundTrip(QuadsWords(l.quads));
    RecordsOfFlatten(rs, QUAD_WORDS);
    FitWhole(l.name, 0);
    var d := o'.items[|s.out.items|].data;
    assert Word(d, LAYER_TYPE) == LAYERTYPE_QUADS && Word(d, QL_NUM) == |l.quads| && Word(d, QL_DATA) == |s.out.blocks|;
    assert Word(d, QL_IMAGE) == l.quadImage && Word(d, LAYER_ITEM_VERSION) == QUADS_VERSION && Word(d, LAYER_FLAGS) == l.flags;
    assert Slice(d, QL_NAME, NAME_WORDS) == l.name;
    var ld := LoadQuads(f, d, nImages);
    assert ld.quads == l.quads;
  }

  /** A sound layer loads back with all its sources, its sound and its name. */
  lemma {:induction false} SoundLayerRoundTrip(s: SaveState, numLayers: int, l: Layer, f: DataFile, nImages: int, nSounds: int, svc: Services)
    requires l.SoundsLayer? && l.sources != [] && |l.name| == NAME_WORDS && -1 <= l.sound < nSounds
    requires KeepsBlocks(SoundLayerOut(s, numLayers, l).0.out, f)
    ensures var o' := SoundLayerOut(s, numLayers, l).0.out;
      |o'.items| == |s.out.items| + 1 && o'.items[..|s.out.items|] == s.out.items
      && o'.items[|s.out.items|].typ == LayerType && o'.items[|s.out.items|].id == s.layerCount
      && LoadLayer(f, o'.items[|s.out.items|], nImages, nSounds, svc) == Some(l)
  {
    var o' := SoundLayerOut(s, numLayers, l).0.out;
    StoreKeeps(s.out, EncodeWords(SourcesWords(l.sources)), f);
    WordsRoundTrip(SourcesWords(l.sources));
    FitWhole(l.name, 0);
    var it := o'.items[|s.out.items|];
    var d := it.data;
    assert d == [0, LAYERTYPE_SOUNDS, l.flags, SOUNDS_VERSION, |l.sources|, |s.out.blocks|, l.sound] + NameWords(l.name, NAME_WORDS);
    assert Word(d, LAYER_TYPE) == LAYERTYPE_SOUNDS && Word(d, QL_NUM) == |l.sources| && Word(d, QL_DATA) == |s.out.blocks|;
    assert Word(d, QL_IMAGE) == l.sound && Word(d, LAYER_ITEM_VERSION) == SOUNDS_VERSION && Word(d, LAYER_FLAGS) == l.flags;
    assert Slice(d, QL_NAME, NAME_WORDS) == l.name;
    SoundsItemLoads(f, it, l, nImages, nSounds, svc);
  }

  /** A sound layer item whose header words and sources block are those a save writes loads as that layer. */
  lemma {:induction false} SoundsItemLoads(f: DataFile, it: Item, l: Layer, nImages: int, nSounds: int, svc: Services)
    requires l.SoundsLayer? && -1 <= l.sound < nSounds
    requires var d := it.data;
      && Word(d, LAYER_TYPE) == LAYERTYPE_SOUNDS && Word(d, QL_NUM) == |l.sources|
      && Word(d, QL_IMAGE) == l.sound && Word(d, LAYER_ITEM_VERSION) == SOUNDS_VERSION && Word(d, LAYER_FLAGS) == l.flags
      && Slice(d, QL_NAME, NAME_WORDS) == l.name
      && f.GetDataSwapped(Word(d, QL_DATA)) == SourcesWords(l.sources)
    ensures LoadLayer(f, it, nImages, nSounds, svc) == Some(l)
  {
    var rs := seq(|l.sources|, k requires 0 <= k < |l.sources| => SourceWords(l.sources[k]));
    forall k | 0 <= k < |rs|
      ensures |rs[k]| == SOURCE_WORDS && WordsSource(rs[k]) == l.sources[k]
    {
      SourceRoundTrip(l.sources[k]);
    }
    RecordsOfFlatten(rs, SOURCE_WORDS);
    var ld := LoadSoundsLayer(f, it.data, nSounds, false);
    assert ld.sources == l.sources;
  }

  // ---------------------------------------------------------------------
  // The layer and group counters

  /** Quad and sound layers without content are not written at all. */
  predicate Written(l: Layer)
  {
    !(l.QuadsLayer? && l.quads == []) && !(l.SoundsLayer? && l.sources == [])
  }

  function WrittenCount(ls: seq<Layer>): nat
  {
    if ls == [] then 0 else WrittenCount(ls[..|ls| - 1]) + (if Written(ls[|ls| - 1]) then 1 else 0)
  }

  /** The layers written for the groups `gs`. */
  function LayerTotal(gs: seq<Group>): nat
  {
    if gs == [] then 0 else LayerTotal(gs[..|gs| - 1]) + WrittenCount(gs[|gs| - 1].layers)
  }

  function LayerItems(o: Out): seq<Item>
  {
    OfType(o.items, LayerType)
  }

  function GroupItems(o: Out): seq<Item>
  {
    OfType(o.items, GroupType)
  }

  /** Every layer item written so far carries its position among the layer items, and LayerCount is their number. */
  predicate LayersNumbered(s: SaveState)
  {
    |LayerItems(s.out)| == s.layerCount && forall i :: 0 <= i < |LayerItems(s.out)| ==> LayerItems(s.out)[i].id == i
  }

  lemma {:induction false} AppendOne(o: Out, it: Item, t: ItemType)
    ensures OfType(o.items + [it], t) == OfType(o.items, t) + (if it.typ == t then [it] else [])
  {
    OfTypeAppend(o.items, [it], t);
    assert [it][..0] == [];
  }

  /** Appending one layer item numbered by the counter, and automapper items, keeps the numbering and adds no group item. */
  lemma {:induction false} NumberedStep(s: SaveState, s': SaveState, w: seq<int>, extra: seq<Item>)
    requires LayersNumbered(s)
    requires s'.out.items == s.out.items + [Item(LayerType, s.layerCount, w)] + extra
    requires s'.layerCount == s.layerCount + 1
    requires forall k :: 0 <= k < |extra| ==> extra[k].typ == AutoMapperConfigType
    ensures LayersNumbered(s') && GroupItems(s'.out) == GroupItems(s.out)
  {
    var it := Item(LayerType, s.layerCount, w);
    OfTypeAppend(s.out.items + [it], extra, LayerType);
    OfTypeAppend(s.out.items + [it], extra, GroupType);
    AppendOne(s.out, it, LayerType);
    AppendOne(s.out, it, GroupType);
  }

  lemma {:induction false} TilesOutCounts(s: SaveState, n: int, l: Layer)
    requires LayersNumbered(s) && l.TilesLayer?
    ensures var (s', n') := TilesOut(s, n, l);
      LayersNumbered(s') && n' == n + 1 && s'.layerCount == s.layerCount + 1
      && s'.groupCount == s.groupCount && GroupItems(s'.out) == GroupItems(s.out)
  {
    var r := TilesOut(s, n, l);
    TilemapItem(s, n, l);
    var it := r.0.out.items[|s.out.items|];
    var extra := r.0.out.items[|s.out.items| + 1..];
    assert r.0.out.items == s.out.items + [it] + extra;
    NumberedStep(s, r.0, it.data, extra);
  }

  /**
   * One layer: a written layer adds one layer item, numbered by the layer
   * counter, and moves the counter and the group's NumLayers by one; an
   * empty quad or sound layer changes nothing.  No group item is written.
   */
  lemma {:induction false} LayerOutCounts(s: SaveState, n: int, l: Layer)
    requires LayersNumbered(s)
    ensures var (s', n') := LayerOut(s, n, l);
      LayersNumbered(s') && n' == n + (if Written(l) then 1 else 0) && s'.layerCount == s.layerCount + (n' - n)
      && s'.groupCount == s.groupCount && GroupItems(s'.out) == GroupItems(s.out)
      && (!Written(l) ==> s' == s && n' == n)
  {
    var r := LayerOut(s, n, l);
    if l.TilesLayer? {
      TilesOutCounts(s, n, l);
    } else if Written(l) {
      var it := r.0.out.items[|s.out.items|];
      assert r.0.out.items == s.out.items + [it] + [];
      NumberedStep(s, r.0, it.data, []);
    }
  }

  lemma {:induction false} LayersOutCounts(s: SaveState, n: int, ls: seq<Layer>)
    requires LayersNumbered(s)
    ensures var (s', n') := LayersOut(s, n, ls);
      LayersNumbered(s') && n' == n + WrittenCount(ls) && s'.layerCount == s.layerCount + WrittenCount(ls)
      && s'.groupCount == s.groupCount && GroupItems(s'.out) == GroupItems(s.out)
    decreases |ls|
  {
    if ls != [] {
      var pre := ls[..|ls| - 1];
      LayersOutCounts(s, n, pre);
      var r := LayersOut(s, n, pre);
      LayerOutCounts(r.0, r.1, ls[|ls| - 1]);
    }
  }

  /** The group item of one group: StartLayer is the layer counter before it, NumLayers the layers it wrote. */
  lemma {:induction false} GroupOutCounts(s: SaveState, g: Group)
    requires LayersNumbered(s)
    ensures var s' := GroupOut(s, g);
      LayersNumbered(s') && s'.layerCount == s.layerCount + WrittenCount(g.layers) && s'.groupCount == s.groupCount + 1
      && GroupItems(s'.out) == GroupItems(s.out) + [Item(GroupType, s.groupCount, GroupWords(g, s.layerCount, WrittenCount(g.layers)))]
  {
    var r := LayersOut(s, 0, g.layers);
    LayersOutCounts(s, 0, g.layers);
    var gi := Item(GroupType, s.groupCount, GroupWords(g, s.layerCount, r.1));
    var ge := Item(GroupExType, s.groupCount, [GROUPEX_VERSION, g.parallaxZoom]);
    var s' := GroupOut(s, g);
    assert s'.out.items == r.0.out.items + [gi] + [ge];
    GroupStep(r.0, s', gi, ge);
  }

  /** Appending a group item and a group extension item keeps the layer numbering and adds that group item. */
  lemma {:induction false} GroupStep(s: SaveState, s': SaveState, gi: Item, ge: Item)
    requires LayersNumbered(s)
    requires s'.out.items == s.out.items + [gi] + [ge] && s'.layerCount == s.layerCount
    requires gi.typ == GroupType && ge.typ == GroupExType
    ensures LayersNumbered(s') && GroupItems(s'.out) == GroupItems(s.out) + [gi]
  {
    var o := Out(s.out.items + [gi], s.out.blocks);
    AppendOne(s.out, gi, LayerType);
    AppendOne(s.out, gi, GroupType);
    AppendOne(o, ge, LayerType);
    AppendOne(o, ge, GroupType);
  }

  /**
   * Over all groups: group k's item is numbered k (after the groups
   * already written), its StartLayer is the number of layers the groups
   * before it wrote and its NumLayers the number it wrote itself; every
   * layer item carries its position, so the loader's StartLayer + l names
   * the l-th layer written for the group.
   */
  lemma {:induction false} GroupsOutCounts(s: SaveState, gs: seq<Group>)
    requires LayersNumbered(s)
    ensures var s' := GroupsOut(s, gs);
      LayersNumbered(s') && s'.layerCount == s.layerCount + LayerTotal(gs) && s'.groupCount == s.groupCount + |gs|
      && GroupItems(s'.out) == GroupItems(s.out) + GroupItemsOf(s, gs)
    decreases |gs|
  {
    if gs != [] {
      var pre := gs[..|gs| - 1];
      GroupsOutCounts(s, pre);
      var t := GroupsOut(s, pre);
      GroupOutCounts(t, gs[|gs| - 1]);
      GroupItemsSnoc(s, gs);
      GroupsStep(s, gs, t, GroupsOut(s, gs));
    }
  }

  /** The counters and group items after one more group, from those before it. */
  lemma {:induction false} GroupsStep(s: SaveState, gs: seq<Group>, t: SaveState, u: SaveState)
    requires gs != []
    requires var pre := gs[..|gs| - 1];
      t.layerCount == s.layerCount + LayerTotal(pre) && t.groupCount == s.groupCount + |pre|
      && GroupItems(t.out) == GroupItems(s.out) + GroupItemsOf(s, pre)
    requires var last := gs[|gs| - 1];
      u.layerCount == t.layerCount + WrittenCount(last.layers) && u.groupCount == t.groupCount + 1
      && GroupItems(u.out) == GroupItems(t.out) + [Item(GroupType, t.groupCount, GroupWords(last, t.layerCount, WrittenCount(last.layers)))]
    requires GroupItemsOf(s, gs) == GroupItemsOf(s, gs[..|gs| - 1]) + [GroupItemAt(s, gs, |gs| - 1)]
    requires var pre, last := gs[..|gs| - 1], gs[|gs| - 1];
      GroupItemAt(s, gs, |gs| - 1)
        == Item(GroupType, s.groupCount + |pre|, GroupWords(last, s.layerCount + LayerTotal(pre), WrittenCount(last.layers)))
    ensures u.layerCount == s.layerCount + LayerTotal(gs) && u.groupCount == s.groupCount + |gs|
    ensures GroupItems(u.out) == GroupItems(s.out) + GroupItemsOf(s, gs)
  {
    var pre := gs[..|gs| - 1];
    assert GroupItems(s.out) + GroupItemsOf(s, pre) + [GroupItemAt(s, gs, |gs| - 1)]
        == GroupItems(s.out) + (GroupItemsOf(s, pre) + [GroupItemAt(s, gs, |gs| - 1)]);
  }

  function GroupItemsOf(s: SaveState, gs: seq<Group>): (r: seq<Item>)
    ensures |r| == |gs|
  {
    seq(|gs|, k requires 0 <= k < |gs| => GroupItemAt(s, gs, k))
  }

  /** The item of group k: numbered k after the groups already written, starting after the layers of the groups before it. */
  function GroupItemAt(s: SaveState, gs: seq<Group>, k: nat): Item
    requires k < |gs|
  {
    Item(GroupType, s.groupCount + k, GroupWords(gs[k], s.layerCount + LayerTotal(gs[..k]), WrittenCount(gs[k].layers)))
  }

  lemma {:induction false} GroupItemsSnoc(s: SaveState, gs: seq<Group>)
    requires gs != []
    ensures GroupItemsOf(s, gs) == GroupItemsOf(s, gs[..|gs| - 1]) + [GroupItemAt(s, gs, |gs| - 1)]
    ensures var pre, last := gs[..|gs| - 1], gs[|gs| - 1];
      GroupItemAt(s, gs, |gs| - 1)
        == Item(GroupType, s.groupCount + |pre|, GroupWords(last, s.layerCount + LayerTotal(pre), WrittenCount(last.layers)))
  {
    var pre := gs[..|gs| - 1];
    assert gs[..|pre|] == pre;
    forall k | 0 <= k < |pre|
      ensures GroupItemAt(s, gs, k) == GroupItemAt(s, pre, k)
    {
      assert gs[..k] == pre[..k];
    }
  }

  /** A group item of the current version gives back the group's fields; the parallax zoom is the collaborator's. */
  lemma {:induction false} GroupHeaderRoundTrip(g: Group, start: int, num: int, ex: Option<seq<int>>, svc: Services)
    requires |g.name| == NAME_WORDS
    ensures var d := GroupWords(g, start, num);
      GroupVersionOk(d) && Word(d, GROUP_START_LAYER) == start && Word(d, GROUP_NUM_LAYERS) == num
      && GroupHeader(d, ex, svc) == g.(layers := [], parallaxZoom := svc.parallaxZoom(d, ex))
  {
    var d := GroupWords(g, start, num);
    FitWhole(g.name, 0);
    assert Slice(d, GROUP_NAME, NAME_WORDS) == g.name;
  }

  /** An older group item keeps the new group's clipping (before version 2) and name (before version 3). */
  lemma {:induction false} GroupHeaderVersions(d: seq<int>, ex: Option<seq<int>>, svc: Services)
    ensures var h := GroupHeader(d, ex, svc);
      h.offsetX == Word(d, GROUP_OFFSET_X) && h.offsetY == Word(d, GROUP_OFFSET_Y)
      && h.parallaxX == Word(d, GROUP_PARALLAX_X) && h.parallaxY == Word(d, GROUP_PARALLAX_Y)
      && (Word(d, 0) < 2 ==> h.useClipping == 0 && h.clipX == 0 && h.clipY == 0 && h.clipW == 0 && h.clipH == 0)
      && (Word(d, 0) >= 2 ==>
            h.useClipping == Word(d, GROUP_USE_CLIPPING) && h.clipX == Word(d, GROUP_CLIP_X) && h.clipY == Word(d, GROUP_CLIP_Y)
            && h.clipW == Word(d, GROUP_CLIP_W) && h.clipH == Word(d, GROUP_CLIP_H))
      && (Word(d, 0) < 3 ==> h.name == NEW_GROUP.name)
      && (Word(d, 0) >= 3 ==> h.name == Slice(d, GROUP_NAME, NAME_WORDS))
  {
  }

  // ---------------------------------------------------------------------
  // Envelopes and their points

  /** The item of envelope e: numbered e, its StartPoint the number of points of the envelopes before it. */
  function EnvelopeItemAt(envs: seq<Envelope>, e: nat): Item
    requires e < |envs|
  {
    Item(EnvelopeType, e, EnvelopeWords(envs[e], PointTotal(envs[..e])))
  }

  /** The envelope items, one per envelope in order, each starting where the points of the previous ones end; no block is written. */
  lemma {:induction false} EnvelopeItems(o: Out, envs: seq<Envelope>)
    ensures EnvelopesOut(o, envs) == Out(o.items + seq(|envs|, e requires 0 <= e < |envs| => EnvelopeItemAt(envs, e)), o.blocks)
    decreases |envs|
  {
    if envs != [] {
      var pre := envs[..|envs| - 1];
      EnvelopeItems(o, pre);
      forall e | 0 <= e < |pre|
        ensures EnvelopeItemAt(envs, e) == EnvelopeItemAt(pre, e)
      {
        assert envs[..e] == pre[..e];
      }
      assert envs[..|pre|] == pre;
      assert seq(|envs|, e requires 0 <= e < |envs| => EnvelopeItemAt(envs, e))
             == seq(|pre|, e requires 0 <= e < |pre| => EnvelopeItemAt(pre, e)) + [EnvelopeItemAt(envs, |pre|)];
    }
  }

  lemma {:induction false} SliceLeft(a: seq<int>, b: seq<int>, from: int, n: nat)
    requires 0 <= from && from + n <= |a|
    ensures Slice(a + b, from, n) == Slice(a, from, n)
  {
    forall k | 0 <= k < n
      ensures Slice(a + b, from, n)[k] == Slice(a, from, n)[k]
    {
      assert Slice(a, from, n)[k] == Word(a, from + k);
      assert Slice(a + b, from, n)[k] == Word(a + b, from + k);
      assert (a + b)[from + k] == a[from + k];
    }
  }

  lemma {:induction false} SliceRight(a: seq<int>, b: seq<int>, from: int, n: nat)
    requires from >= |a|
    ensures Slice(a + b, from, n) == Slice(b, from - |a|, n)
  {
    forall k | 0 <= k < n
      ensures Slice(a + b, from, n)[k] == Slice(b, from - |a|, n)[k]
    {
      assert Slice(b, from - |a|, n)[k] == Word(b, from - |a| + k);
      assert Slice(a + b, from, n)[k] == Word(a + b, from + k);
      if from + k < |a + b| {
        assert (a + b)[from + k] == b[from + k - |a|];
      }
    }
  }

  lemma {:induction false} SliceWhole(ws: seq<int>)
    ensures Slice(ws, 0, |ws|) == ws
  {
    forall k | 0 <= k < |ws|
      ensures Slice(ws, 0, |ws|)[k] == ws[k]
    {
      assert Slice(ws, 0, |ws|)[k] == Word(ws, k);
    }
  }

  lemma {:induction false} StoredSizes(ps: seq<EnvPoint>, p: nat)
    requires p < |ps|
    ensures |StoredPoint(ps[p])| == ENV_POINT_WORDS && |BezierWords(StoredTangents(ps, p))| == BEZIER_WORDS
  {
  }

  lemma {:induction false} EnvPointWordsLength(ps: seq<EnvPoint>)
    ensures |EnvPointWords(ps)| == 6 * |ps|
    decreases |ps|
  {
    if ps != [] {
      EnvPointWordsLength(ps[..|ps| - 1]);
    }
  }

  lemma {:induction false} EnvBezierWordsLength(ps: seq<EnvPoint>, n: nat)
    requires n <= |ps|
    ensures |EnvBezierWords(ps, n)| == 16 * n
    decreases n
  {
    if n > 0 {
      EnvBezierWordsLength(ps, n - 1);
      StoredSizes(ps, n - 1);
    }
  }

  lemma {:induction false} EnvPointWordsAt(ps: seq<EnvPoint>, p: nat)
    requires p < |ps|
    ensures Slice(EnvPointWords(ps), 6 * p, 6) == StoredPoint(ps[p])
    decreases |ps|
  {
    var pre := ps[..|ps| - 1];
    var last := StoredPoint(ps[|ps| - 1]);
    assert EnvPointWords(ps) == EnvPointWords(pre) + last;
    EnvPointWordsLength(pre);
    if p < |pre| {
      EnvPointWordsAt(pre, p);
      assert pre[p] == ps[p];
      SliceLeft(EnvPointWords(pre), last, 6 * p, 6);
    } else {
      SliceRight(EnvPointWords(pre), last, 6 * p, 6);
      SliceWhole(last);
    }
  }

  lemma {:induction false} EnvBezierWordsAt(ps: seq<EnvPoint>, n: nat, p: nat)
    requires p < n <= |ps|
    ensures Slice(EnvBezierWords(ps, n), 16 * p, 16) == BezierWords(StoredTangents(ps, p))
    decreases n
  {
    var last := BezierWords(StoredTangents(ps, n - 1));
    assert EnvBezierWords(ps, n) == EnvBezierWords(ps, n - 1) + last;
    EnvBezierWordsLength(ps, n - 1);
    if p < n - 1 {
      EnvBezierWordsAt(ps, n - 1, p);
      SliceLeft(EnvBezierWords(ps, n - 1), last, 16 * p, 16);
    } else {
      StoredSizes(ps, p);
      SliceRight(EnvBezierWords(ps, n - 1), last, 16 * p, 16);
      SliceWhole(last);
    }
  }

  lemma {:induction false} PointTotalPrefix(envs: seq<Envelope>, e: nat)
    requires e < |envs|
    ensures PointTotal(envs[..e]) + |envs[e].points| <= PointTotal(envs)
    decreases |envs|
  {
    var pre := envs[..|envs| - 1];
    if e < |pre| {
      PointTotalPrefix(pre, e);
      assert pre[..e] == envs[..e];
    } else {
      assert envs[..e] == pre;
    }
  }

  lemma {:induction false} PointLengths(envs: seq<Envelope>)
    ensures |AllPointWords(envs)| == 6 * PointTotal(envs)
    ensures |AllBezierWords(envs)| == 16 * PointTotal(envs)
    decreases |envs|
  {
    if envs != [] {
      var last := envs[|envs| - 1].points;
      PointLengths(envs[..|envs| - 1]);
      EnvPointWordsLength(last);
      EnvBezierWordsLength(last, |last|);
    }
  }

  /** The blocks of a sequence of envelopes, one block per envelope, back to back. */
  function Flat(envs: seq<Envelope>, block: Envelope -> seq<int>): seq<int>
  {
    if envs == [] then [] else Flat(envs[..|envs| - 1], block) + block(envs[|envs| - 1])
  }

  function PointBlock(env: Envelope): seq<int> { EnvPointWords(env.points) }

  function BezierBlock(env: Envelope): seq<int> { EnvBezierWords(env.points, |env.points|) }

  lemma {:induction false} FlatPoints(envs: seq<Envelope>)
    ensures AllPointWords(envs) == Flat(envs, PointBlock)
    decreases |envs|
  {
    if envs != [] {
      FlatPoints(envs[..|envs| - 1]);
    }
  }

  lemma {:induction false} FlatBeziers(envs: seq<Envelope>)
    ensures AllBezierWords(envs) == Flat(envs, BezierBlock)
    decreases |envs|
  {
    if envs != [] {
      FlatBeziers(envs[..|envs| - 1]);
    }
  }

  lemma {:induction false} FlatPrefix(envs: seq<Envelope>, block: Envelope -> seq<int>, e: nat)
    requires e < |envs|
    ensures |Flat(envs[..e], block)| + |block(envs[e])| <= |Flat(envs, block)|
    decreases |envs|
  {
    var pre := envs[..|envs| - 1];
    if e < |pre| {
      FlatPrefix(pre, block, e);
      assert pre[..e] == envs[..e];
    } else {
      assert envs[..e] == pre;
    }
  }

  /** Every word of block e sits past the blocks before it. */
  lemma {:induction false} FlatWordAt(envs: seq<Envelope>, block: Envelope -> seq<int>, e: nat)
    requires e < |envs|
    ensures forall i :: 0 <= i < |block(envs[e])| ==>
      Word(Flat(envs, block), |Flat(envs[..e], block)| + i) == Word(block(envs[e]), i)
    decreases |envs|
  {
    var pre := envs[..|envs| - 1];
    var b := block(envs[|envs| - 1]);
    assert Flat(envs, block) == Flat(pre, block) + b;
    if e < |pre| {
      FlatWordAt(pre, block, e);
      assert pre[..e] == envs[..e] && pre[e] == envs[e];
      FlatPrefix(pre, block, e);
      forall i | 0 <= i < |block(envs[e])|
        ensures Word(Flat(envs, block), |Flat(envs[..e], block)| + i) == Word(block(envs[e]), i)
      {
        var k := |Flat(envs[..e], block)| + i;
        assert Word(Flat(pre, block), k) == Word(block(envs[e]), i);
        assert (Flat(pre, block) + b)[k] == Flat(pre, block)[k];
      }
    } else {
      assert envs[..e] == pre;
      forall i | 0 <= i < |b|
        ensures Word(Flat(envs, block), |Flat(pre, block)| + i) == Word(b, i)
      {
        assert (Flat(pre, block) + b)[|Flat(pre, block)| + i] == b[i];
      }
    }
  }

  /** The blocks before envelope e hold six point words and sixteen tangent words per point. */
  lemma {:induction false} FlatOffsets(envs: seq<Envelope>, e: nat)
    requires e <= |envs|
    ensures |Flat(envs[..e], PointBlock)| == 6 * PointTotal(envs[..e])
    ensures |Flat(envs[..e], BezierBlock)| == 16 * PointTotal(envs[..e])
  {
    FlatPoints(envs[..e]);
    FlatBeziers(envs[..e]);
    PointLengths(envs[..e]);
  }

  /** Word i of envelope e's point records is word i past StartPoint records of the points item. */
  lemma {:induction false} PointWordAt(envs: seq<Envelope>, e: nat, i: nat)
    requires e < |envs| && i < 6 * |envs[e].points|
    ensures Word(AllPointWords(envs), 6 * PointTotal(envs[..e]) + i) == Word(EnvPointWords(envs[e].points), i)
  {
    var whole := Flat(envs, PointBlock);
    var before := Flat(envs[..e], PointBlock);
    assert PointBlock(envs[e]) == EnvPointWords(envs[e].points);
    EnvPointWordsLength(envs[e].points);
    FlatWordAt(envs, PointBlock, e);
    assert Word(whole, |before| + i) == Word(PointBlock(envs[e]), i);
    FlatOffsets(envs, e);
    FlatPoints(envs);
    var k := |before| + i;
    assert Word(AllPointWords(envs), k) == Word(whole, k);
    assert k == 6 * PointTotal(envs[..e]) + i;
  }

  /** Word i of envelope e's tangent records is word i past StartPoint records of the bezier item. */
  lemma {:induction false} BezierWordAt(envs: seq<Envelope>, e: nat, i: nat)
    requires e < |envs| && i < 16 * |envs[e].points|
    ensures Word(AllBezierWords(envs), 16 * PointTotal(envs[..e]) + i)
      == Word(EnvBezierWords(envs[e].points, |envs[e].points|), i)
  {
    var whole := Flat(envs, BezierBlock);
    var before := Flat(envs[..e], BezierBlock);
    assert BezierBlock(envs[e]) == EnvBezierWords(envs[e].points, |envs[e].points|);
    EnvBezierWordsLength(envs[e].points, |envs[e].points|);
    FlatWordAt(envs, BezierBlock, e);
    assert Word(whole, |before| + i) == Word(BezierBlock(envs[e]), i);
    FlatOffsets(envs, e);
    FlatBeziers(envs);
    var k := |before| + i;
    assert Word(AllBezierWords(envs), k) == Word(whole, k);
    assert k == 16 * PointTotal(envs[..e]) + i;
  }

  /** Word j of point p's record is word j of the stored point. */
  lemma {:induction false} EnvPointWordOf(ps: seq<EnvPoint>, p: nat, j: nat, i: int)
    requires p < |ps| && j < ENV_POINT_WORDS && i == 6 * p + j
    ensures Word(EnvPointWords(ps), i) == Word(StoredPoint(ps[p]), j)
  {
    EnvPointWordsAt(ps, p);
    StoredSizes(ps, p);
    assert Slice(EnvPointWords(ps), 6 * p, 6)[j] == Word(EnvPointWords(ps), 6 * p + j);
  }

  /** Word j of point p's tangent record is word j of its stored tangents. */
  lemma {:induction false} EnvBezierWordOf(ps: seq<EnvPoint>, p: nat, j: nat, i: int)
    requires p < |ps| && j < BEZIER_WORDS && i == 16 * p + j
    ensures Word(EnvBezierWords(ps, |ps|), i) == Word(BezierWords(StoredTangents(ps, p)), j)
  {
    EnvBezierWordsAt(ps, |ps|, p);
    StoredSizes(ps, p);
    assert Slice(EnvBezierWords(ps, |ps|), 16 * p, 16)[j] == Word(EnvBezierWords(ps, |ps|), 16 * p + j);
  }

  /**
   * Point p of envelope e is the record at StartPoint + p of the points
   * item, StartPoint being the number of points of the envelopes before e.
   */
  lemma {:induction false} PointRecordWord(envs: seq<Envelope>, e: nat, p: nat, j: nat, at: int)
    requires e < |envs| && p < |envs[e].points| && j < ENV_POINT_WORDS
    requires at == 6 * (PointTotal(envs[..e]) + p) + j
    ensures Word(AllPointWords(envs), at) == Word(StoredPoint(envs[e].points[p]), j)
  {
    var i := 6 * p + j;
    PointWordAt(envs, e, i);
    EnvPointWordOf(envs[e].points, p, j, i);
    WordAtSame(AllPointWords(envs), at, 6 * PointTotal(envs[..e]) + i);
  }

  /** The tangents of point p of envelope e are the record at the same index of the bezier item. */
  lemma {:induction false} BezierRecordWord(envs: seq<Envelope>, e: nat, p: nat, j: nat, at: int)
    requires e < |envs| && p < |envs[e].points| && j < BEZIER_WORDS
    requires at == 16 * (PointTotal(envs[..e]) + p) + j
    ensures Word(AllBezierWords(envs), at) == Word(BezierWords(StoredTangents(envs[e].points, p)), j)
  {
    var i := 16 * p + j;
    BezierWordAt(envs, e, i);
    EnvBezierWordOf(envs[e].points, p, j, i);
    WordAtSame(AllBezierWords(envs), at, 16 * PointTotal(envs[..e]) + i);
  }

  /** The six words of point record i, i being StartPoint of envelope e plus p, are those of its point p. */
  lemma {:induction false} PointRecordAt(envs: seq<Envelope>, e: nat, p: nat, i: int)
    requires e < |envs| && p < |envs[e].points| && i == PointTotal(envs[..e]) + p
    ensures forall j :: 0 <= j < ENV_POINT_WORDS ==> Word(AllPointWords(envs), 6 * i + j) == Word(StoredPoint(envs[e].points[p]), j)
  {
    forall j | 0 <= j < ENV_POINT_WORDS
      ensures Word(AllPointWords(envs), 6 * i + j) == Word(StoredPoint(envs[e].points[p]), j)
    {
      PointRecordWord(envs, e, p, j, 6 * i + j);
    }
  }

  /** The sixteen words of tangent record i are the stored tangents of that point. */
  lemma {:induction false} BezierRecordAt(envs: seq<Envelope>, e: nat, p: nat, i: int)
    requires e < |envs| && p < |envs[e].points| && i == PointTotal(envs[..e]) + p
    ensures forall j :: 0 <= j < BEZIER_WORDS ==>
      Word(AllBezierWords(envs), 16 * i + j) == Word(BezierWords(StoredTangents(envs[e].points, p)), j)
  {
    forall j | 0 <= j < BEZIER_WORDS
      ensures Word(AllBezierWords(envs), 16 * i + j) == Word(BezierWords(StoredTangents(envs[e].points, p)), j)
    {
      BezierRecordWord(envs, e, p, j, 16 * i + j);
    }
  }

  /** Two positions that are equal read the same word. */
  lemma {:induction false} WordAtSame(ws: seq<int>, x: int, y: int)
    requires x == y
    ensures Word(ws, x) == Word(ws, y)
  {
  }

  /** A slice is the sequence whose words it reads one by one. */
  lemma {:induction false} SliceIs(ws: seq<int>, x: int, rec: seq<int>)
    requires forall j :: 0 <= j < |rec| ==> Word(ws, x + j) == Word(rec, j)
    ensures Slice(ws, x, |rec|) == rec
  {
    forall j | 0 <= j < |rec|
      ensures Slice(ws, x, |rec|)[j] == rec[j]
    {
      assert Word(ws, x + j) == Word(rec, j);
    }
  }

  /**
   * Point i read through separate point and tangent items: the six words
   * of record i give its time, curve type and values, and the sixteen
   * words of tangent record i, when that item is there, its tangents.
   */
  lemma {:induction false} LoadPointFrom(pa: PointAccess, i: int, rec: seq<int>, b: Bezier)
    requires pa.points.Some? && pa.combined.None? && 0 <= i < pa.count
    requires |rec| == ENV_POINT_WORDS
    requires forall j :: 0 <= j < ENV_POINT_WORDS ==> Word(pa.points.value, 6 * i + j) == Word(rec, j)
    requires |b.inDeltaX| == 4 && |b.inDeltaY| == 4 && |b.outDeltaX| == 4 && |b.outDeltaY| == 4
    requires pa.beziers.Some? ==>
      forall j :: 0 <= j < BEZIER_WORDS ==> Word(pa.beziers.value, 16 * i + j) == Word(BezierWords(b), j)
    ensures LoadPoint(pa, i)
      == EnvPoint(rec[0], rec[1], Slice(rec, 2, 4), if pa.beziers.Some? then b else NO_TANGENTS)
  {
    SliceIs(pa.points.value, 6 * i, rec);
    if pa.beziers.Some? {
      BezierRoundTrip(b);
      SliceIs(pa.beziers.value, 16 * i, BezierWords(b));
    }
  }

  // ---------------------------------------------------------------------
  // Envelopes read back

  /** A point as the file gives it back: its stored fields, and its stored tangents when the bezier item was written. */
  function SavedPoint(ps: seq<EnvPoint>, p: nat, withTangents: bool): EnvPoint
    requires p < |ps|
  {
    EnvPoint(ps[p].time, ps[p].curveType, Fit(ps[p].values, 4, 0), if withTangents then StoredTangents(ps, p) else NO_TANGENTS)
  }

  /** An envelope name as the file gives it back: the stored words, or zeros when the first word is the absent marker -1. */
  function SavedName(name: seq<int>): seq<int>
  {
    var ws := NameWords(name, ENV_NAME_WORDS);
    if ws[0] == -1 then Zeros(ENV_NAME_WORDS) else ws
  }

  /** What a file holding the envelope, point and tangent items of `envs` (and no others of those types) holds. */
  predicate HoldsEnvelopes(f: DataFile, envs: seq<Envelope>)
  {
    && |f.GetType(EnvelopeType)| == |envs|
    && (forall e :: 0 <= e < |envs| ==> f.GetType(EnvelopeType)[e] == EnvelopeItemAt(envs, e))
    && FirstData(f, EnvPointsType) == Some(AllPointWords(envs))
    && FirstData(f, EnvPointsBezierType) == if BezierUsed(envs) then Some(AllBezierWords(envs)) else None
  }

  /**
   * Envelope items are written at version 2, so the points are read as
   * separate point and tangent items: one point per six words, and the
   * tangents whenever they were written.
   */
  lemma {:induction false} PointAccessOfSaved(f: DataFile, envs: seq<Envelope>)
    requires HoldsEnvelopes(f, envs)
    ensures MakePointAccess(f) == SavedAccess(envs)
  {
    var items := f.GetType(EnvelopeType);
    forall k | 0 <= k < |items|
      ensures Word(items[k].data, 0) < 3
    {
      assert items[k] == EnvelopeItemAt(envs, k);
    }
    PointLengths(envs);
  }

  /** The point access a saved file gives: its point item, its tangent item when written, one point per six words. */
  function SavedAccess(envs: seq<Envelope>): PointAccess
  {
    PointAccess(Some(AllPointWords(envs)), if BezierUsed(envs) then Some(AllBezierWords(envs)) else None, None, PointTotal(envs))
  }

  /**
   * Point p of envelope e is read back from StartPoint + p with its time,
   * curve type and four values, and with the tangents that were stored for
   * it when any point of any envelope is a bezier point.
   */
  lemma {:induction false} PointRoundTrip(f: DataFile, envs: seq<Envelope>, e: nat, p: nat)
    requires HoldsEnvelopes(f, envs) && e < |envs| && p < |envs[e].points|
    ensures LoadPoint(MakePointAccess(f), PointTotal(envs[..e]) + p) == SavedPoint(envs[e].points, p, BezierUsed(envs))
  {
    PointAccessOfSaved(f, envs);
    SavedPointAt(envs, e, p, PointTotal(envs[..e]) + p);
  }

  /** Point record i of a saved point access, i being StartPoint of envelope e plus p, reads as point p of e. */
  lemma {:induction false} SavedPointAt(envs: seq<Envelope>, e: nat, p: nat, i: int)
    requires e < |envs| && p < |envs[e].points| && i == PointTotal(envs[..e]) + p
    ensures LoadPoint(SavedAccess(envs), i) == SavedPoint(envs[e].points, p, BezierUsed(envs))
  {
    var ps := envs[e].points;
    PointTotalPrefix(envs, e);
    var rec := StoredPoint(ps[p]);
    var b := StoredTangents(ps, p);
    StoredSizes(ps, p);
    PointRecordAt(envs, e, p, i);
    if BezierUsed(envs) {
      BezierRecordAt(envs, e, p, i);
    }
    LoadPointFrom(SavedAccess(envs), i, rec, b);
    assert Slice(rec, 2, 4) == Fit(ps[p].values, 4, 0);
  }

  /**
   * Envelope e is read back with its channel count, its synchronized flag,
   * its name (zeros when its first word is -1) and each of its points as
   * PointRoundTrip gives it.
   */
  lemma {:induction false} EnvelopeRoundTrip(f: DataFile, envs: seq<Envelope>, e: nat)
    requires HoldsEnvelopes(f, envs) && e < |envs|
    ensures var env := LoadEnvelope(MakePointAccess(f), f.GetType(EnvelopeType)[e]);
      && env.channels == envs[e].channels
      && env.synchronized == envs[e].synchronized
      && env.name == SavedName(envs[e].name)
      && |env.points| == |envs[e].points|
      && forall p :: 0 <= p < |env.points| ==> env.points[p] == SavedPoint(envs[e].points, p, BezierUsed(envs))
  {
    var it := f.GetType(EnvelopeType)[e];
    var t := PointTotal(envs[..e]);
    assert it == EnvelopeItemAt(envs, e);
    EnvelopeItemFields(MakePointAccess(f), it, envs[e], t);
    PointAccessOfSaved(f, envs);
    forall p | 0 <= p < |envs[e].points|
      ensures LoadPoint(MakePointAccess(f), t + p) == SavedPoint(envs[e].points, p, BezierUsed(envs))
    {
      SavedPointAt(envs, e, p, t + p);
    }
  }

  /**
   * An envelope item gives back the channel count, synchronized flag, name
   * and number of points written into it, and reads its points from
   * StartPoint on.
   */
  lemma {:induction false} EnvelopeItemFields(pa: PointAccess, it: Item, env: Envelope, start: int)
    requires it.data == EnvelopeWords(env, start)
    ensures var r := LoadEnvelope(pa, it);
      && r.channels == env.channels && r.synchronized == env.synchronized && r.name == SavedName(env.name)
      && |r.points| == |env.points|
      && forall p :: 0 <= p < |r.points| ==> r.points[p] == LoadPoint(pa, start + p)
  {
    var d := it.data;
    assert Slice(d, ENV_NAME, ENV_NAME_WORDS) == NameWords(env.name, ENV_NAME_WORDS);
  }

  /**
   * The envelope section of a save, appended to items holding no envelope,
   * point or tangent item, is what HoldsEnvelopes describes.
   */
  lemma {:induction false} EnvelopeSectionHeld(o: Out, envs: seq<Envelope>)
    requires OfType(o.items, EnvelopeType) == [] && OfType(o.items, EnvPointsType) == []
    requires OfType(o.items, EnvPointsBezierType) == []
    ensures var o' := PointsOut(EnvelopesOut(o, envs), envs);
      HoldsEnvelopes(DataFile(o'.items, o'.blocks), envs)
  {
    var envItems := seq(|envs|, e requires 0 <= e < |envs| => EnvelopeItemAt(envs, e));
    var pts := [Item(EnvPointsType, 0, AllPointWords(envs))];
    var bzs := if BezierUsed(envs) then [Item(EnvPointsBezierType, 0, AllBezierWords(envs))] else [];
    SectionItems(o, envs, envItems, pts, bzs);
    SectionTypes(o.items, envItems, pts, bzs);
    HeldFrom(DataFile(o.items + envItems + pts + bzs, o.blocks), envs, pts, bzs);
  }

  /** The envelope section appends the envelope items, then the point item, then the tangent item when it is written. */
  lemma {:induction false} SectionItems(o: Out, envs: seq<Envelope>, envItems: seq<Item>, pts: seq<Item>, bzs: seq<Item>)
    requires envItems == seq(|envs|, e requires 0 <= e < |envs| => EnvelopeItemAt(envs, e))
    requires pts == [Item(EnvPointsType, 0, AllPointWords(envs))]
    requires bzs == (if BezierUsed(envs) then [Item(EnvPointsBezierType, 0, AllBezierWords(envs))] else [])
    ensures PointsOut(EnvelopesOut(o, envs), envs) == Out(o.items + envItems + pts + bzs, o.blocks)
  {
    EnvelopeItems(o, envs);
    if !BezierUsed(envs) {
      assert o.items + envItems + pts + bzs == o.items + envItems + pts;
    }
  }

  /**
   * Envelope, point and tangent items appended, in that order, to items of
   * none of those types are the file's items of each of the three types.
   */
  lemma {:induction false} SectionTypes(a: seq<Item>, x: seq<Item>, y: seq<Item>, z: seq<Item>)
    requires OfType(a, EnvelopeType) == [] && OfType(a, EnvPointsType) == [] && OfType(a, EnvPointsBezierType) == []
    requires forall k :: 0 <= k < |x| ==> x[k].typ == EnvelopeType
    requires forall k :: 0 <= k < |y| ==> y[k].typ == EnvPointsType
    requires forall k :: 0 <= k < |z| ==> z[k].typ == EnvPointsBezierType
    ensures OfType(a + x + y + z, EnvelopeType) == x
    ensures OfType(a + x + y + z, EnvPointsType) == y
    ensures OfType(a + x + y + z, EnvPointsBezierType) == z
  {
    OfTypeAll(x, EnvelopeType);
    OfTypeOther(y, EnvPointsType, EnvelopeType);
    OfTypeOther(z, EnvPointsBezierType, EnvelopeType);
    SectionOfType(a, x, y, z, EnvelopeType);
    assert [] + x + [] + [] == x;
    OfTypeOther(x, EnvelopeType, EnvPointsType);
    OfTypeAll(y, EnvPointsType);
    OfTypeOther(z, EnvPointsBezierType, EnvPointsType);
    SectionOfType(a, x, y, z, EnvPointsType);
    assert [] + [] + y + [] == y;
    OfTypeOther(x, EnvelopeType, EnvPointsBezierType);
    OfTypeOther(y, EnvPointsType, EnvPointsBezierType);
    OfTypeAll(z, EnvPointsBezierType);
    SectionOfType(a, x, y, z, EnvPointsBezierType);
    assert [] + [] + [] + z == z;
  }

  /** The items of type t of a concatenation of four parts, part by part. */
  lemma {:induction false} SectionOfType(a: seq<Item>, x: seq<Item>, y: seq<Item>, z: seq<Item>, t: ItemType)
    ensures OfType(a + x + y + z, t) == OfType(a, t) + OfType(x, t) + OfType(y, t) + OfType(z, t)
  {
    OfTypeAppend(a + x + y, z, t);
    OfTypeAppend(a + x, y, t);
    OfTypeAppend(a, x, t);
  }

  /** A file whose envelope, point and tangent items are exactly those of a save holds the envelopes. */
  lemma {:induction false} HeldFrom(f: DataFile, envs: seq<Envelope>, pts: seq<Item>, bzs: seq<Item>)
    requires f.GetType(EnvelopeType) == seq(|envs|, e requires 0 <= e < |envs| => EnvelopeItemAt(envs, e))
    requires pts == [Item(EnvPointsType, 0, AllPointWords(envs))] && f.GetType(EnvPointsType) == pts
    requires bzs == (if BezierUsed(envs) then [Item(EnvPointsBezierType, 0, AllBezierWords(envs))] else [])
    requires f.GetType(EnvPointsBezierType) == bzs
    ensures HoldsEnvelopes(f, envs)
  {
  }

  /** Items that are all of type u hold none of another type t. */
  lemma {:induction false} OfTypeOther(items: seq<Item>, u: ItemType, t: ItemType)
    requires forall k :: 0 <= k < |items| ==> items[k].typ == u
    requires t != u
    ensures OfType(items, t) == []
  {
    assert forall k :: 0 <= k < |items| ==> items[k].typ != t;
  }

  /** Items that are all of type t are their own items of type t. */
  lemma {:induction false} OfTypeAll(items: seq<Item>, t: ItemType)
    requires forall k :: 0 <= k < |items| ==> items[k].typ == t
    ensures OfType(items, t) == items
    decreases |items|
  {
    if items != [] {
      OfTypeAll(items[..|items| - 1], t);
    }
  }

}
