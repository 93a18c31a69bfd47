/**
 * The sections CEditorMap::Save writes, read back through CEditorMap::Load's
 * loops: images, sounds, and the group section with its layer items, group
 * items and automapper items.  A layer loads back in its saved form: empty
 * quad and sound layers are dropped, the tiles of tele, speedup, switch and
 * tune layers are rebuilt from their side arrays, and only plain tile layers
 * keep their automapper settings.
 */
/** How a group's run of layer items reads back, given what each item loads to. */
module LayerRuns {
  import opened Container
  import opened MapModel
  import opened LoadSpec

  lemma {:induction false} PrefixSnoc<T>(xs: seq<T>, n: nat)
    requires 0 < n <= |xs|
    ensures xs[..n] == xs[..n - 1] + [xs[n - 1]]
  {
  }

  /** A slice one longer is the shorter slice and its last element. */
  lemma {:induction false} SliceSnoc(lds: seq<Layer>, start: nat, n: nat)
    requires 0 < n && start + n <= |lds|
    ensures lds[start..start + n] == lds[start..start + n - 1] + [lds[start + n - 1]]
  {
  }

  /** Layer item j loads to layer j. */
  predicate LoadsAt(f: DataFile, items: seq<Item>, lds: seq<Layer>, j: int, nImages: int, nSounds: int, svc: Services)
    requires 0 <= j < |items| && j < |lds|
  {
    LoadLayer(f, items[j], nImages, nSounds, svc) == Some(lds[j])
  }

  /** A run of results that all load keeps every layer of the run. */
  lemma {:induction false} KeptAll(results: seq<Option<Layer>>, lds: seq<Layer>, start: nat, n: nat)
    requires |results| == |lds| && start + n <= |lds|
    requires forall j :: 0 <= j < |lds| ==> results[j] == Some(lds[j])
    ensures KeptLayers(results, start, n) == lds[start..start + n]
  {
    if n > 0 {
      KeptAll(results, lds, start, n - 1);
      SliceSnoc(lds, start, n);
    }
  }

  /** The layer items from `start` on, each loading to a layer, give those layers in order. */
  lemma ReadLayers(f: DataFile, items: seq<Item>, lds: seq<Layer>, start: nat, n: nat, nImages: int, nSounds: int, svc: Services)
    requires |items| == |lds| && start + n <= |lds|
    requires forall j :: 0 <= j < |lds| ==> LoadsAt(f, items, lds, j, nImages, nSounds, svc)
    ensures LoadGroupLayers(f, items, start, n, nImages, nSounds, svc) == lds[start..start + n]
  {
    var results := LayerResults(f, items, nImages, nSounds, svc);
    forall j | 0 <= j < |lds|
      ensures results[j] == Some(lds[j])
    {
      assert LoadsAt(f, items, lds, j, nImages, nSounds, svc);
    }
    KeptAll(results, lds, start, n);
  }
}

module MapRoundTrip {
  import opened Container
  import opened MapItems
  import opened MapModel
  import opened SaveSpec
  import opened LoadSpec
  import opened MapProperties
  import opened FileProperties
  import opened LayerRuns

  // ---------------------------------------------------------------------
  // Tile layers in their saved form

  /** The fields of a tile layer the tilemap item carries, over a freshly constructed layer of its kind. */
  function SavedHeader(l: Layer): (h: Layer)
    requires l.TilesLayer?
    ensures h.TilesLayer? && h.kind == l.kind && |h.tiles| == Area(l.width, l.height)
  {
    var h0 := NewTilesLayer(l.width, l.height, l.kind);
    var h1 := if l.kind == PLAIN_KIND then h0.(color := l.color, colorEnv := l.colorEnv, colorEnvOffset := l.colorEnvOffset) else h0;
    h1.(flags := l.flags, image := l.image, name := l.name)
  }

  /**
   * A tile layer as it loads back, before the automapper items: the header
   * fields, and either its own tiles (plain, game and front layers) or the
   * side array of its kind with tiles rebuilt from it (tele, speedup,
   * switch and tune layers).
   */
  function SavedTiles(l: Layer, r: EntityRules): (ld: Layer)
    requires WellFormedTiles(l)
    ensures ld.TilesLayer? && ld.kind == l.kind
  {
    var h := SavedHeader(l);
    var n := |l.tiles|;
    if l.kind.tele then
      h.(side := h.side.(tele := l.side.tele),
         tiles := seq(n, i requires 0 <= i < n => ZERO_TILE.(index := TeleIndex(r, l.side.tele[i]))))
    else if l.kind.speedup then
      h.(side := h.side.(speedup := l.side.speedup),
         tiles := seq(n, i requires 0 <= i < n => ZERO_TILE.(index := SpeedupIndex(r, l.side.speedup[i]))))
    else if l.kind.switch then
      h.(side := h.side.(switch := l.side.switch),
         tiles := seq(n, i requires 0 <= i < n => SwitchTileOf(r, ZERO_TILE, l.side.switch[i])))
    else if l.kind.tune then
      h.(side := h.side.(tune := l.side.tune),
         tiles := seq(n, i requires 0 <= i < n => ZERO_TILE.(index := TuneIndex(r, l.side.tune[i]))))
    else h.(tiles := l.tiles)
  }

  /** The layer the loader builds from a layer item, before the automapper items; quad and sound layers come back as they are. */
  function LoadedForm(l: Layer, r: EntityRules): Layer
  {
    if WellFormedTiles(l) then SavedTiles(l, r) else l
  }

  /** A written layer as it loads back, a plain tile layer with the automapper settings of its automapper item. */
  function SavedLayer(l: Layer, r: EntityRules): Layer
  {
    if WellFormedTiles(l) && l.kind == PLAIN_KIND then
      var t := SavedTiles(l, r);
      t.(autoMapperConfig := l.autoMapperConfig, seed := l.seed, autoAutoMap := l.autoAutoMap)
    else LoadedForm(l, r)
  }

  /** A layer the file has room for: a well-formed tile layer, or a quad or sound layer with a three-word name, in-range references and full quad records. */
  predicate SaveableLayer(l: Layer, nImages: int, nSounds: int)
  {
    match l
    case TilesLayer(_, _, _, _, _, _, _, _, _, _, _, _, _, _) => WellFormedTiles(l)
    case QuadsLayer(_, quadImage, name, quads) =>
      |name| == NAME_WORDS && -1 <= quadImage < nImages && forall k :: 0 <= k < |quads| ==> |quads[k].words| == QUAD_WORDS
    case SoundsLayer(_, sound, name, _) => |name| == NAME_WORDS && -1 <= sound < nSounds
  }

  // ---------------------------------------------------------------------
  // Tile layers read back whole

  /** The tilemap item gives back the header fields of the layer exactly. */
  lemma {:induction false} TilesHeaderIs(l: Layer, dataRef: int, refs: seq<int>)
    requires WellFormedTiles(l) && |refs| == 5
    ensures TilesHeader(TilemapWords(l, SaveFlags(l.kind), dataRef, refs)) == SavedHeader(l)
  {
    var d := TilemapWords(l, SaveFlags(l.kind), dataRef, refs);
    TilesHeaderRoundTrip(l, dataRef, refs);
    KindRoundTrip(l.kind);
    assert Word(d, LAYER_ITEM_VERSION) == TILEMAP_VERSION;
  }

  lemma {:induction false} TeleContentSaved(f: DataFile, d: seq<int>, l: Layer, svc: Services)
    requires WellFormedTiles(l) && l.kind.tele
    requires f.GetData(SideRef(d, 0)) == SideBlock(l)
    ensures TilesContent(f, d, SavedHeader(l), svc) == SavedTiles(l, svc.rules)
  {
    FitWhole(l.side.tele, TeleTile(0, 0));
    RecordsDecode(l.side.tele, TELE_TILE_BYTES, TeleBytes, BytesTele, TeleTile(0, 0));
  }

  lemma {:induction false} SpeedupContentSaved(f: DataFile, d: seq<int>, l: Layer, svc: Services)
    requires WellFormedTiles(l) && l.kind.speedup
    requires f.GetData(SideRef(d, 1)) == SideBlock(l)
    ensures TilesContent(f, d, SavedHeader(l), svc) == SavedTiles(l, svc.rules)
  {
    SpeedupDecode(l);
  }

  lemma {:induction false} FrontContentSaved(f: DataFile, d: seq<int>, l: Layer, svc: Services)
    requires WellFormedTiles(l) && l.kind.front && Word(d, LAYER_ITEM_VERSION) == TILEMAP_VERSION
    requires f.GetData(SideRef(d, 2)) == SideBlock(l)
    ensures TilesContent(f, d, SavedHeader(l), svc) == SavedTiles(l, svc.rules)
  {
    FitWhole(l.tiles, ZERO_TILE);
    TilesDecode(l.tiles);
  }

  lemma {:induction false} SwitchContentSaved(f: DataFile, d: seq<int>, l: Layer, svc: Services)
    requires WellFormedTiles(l) && l.kind.switch
    requires f.GetData(SideRef(d, 3)) == SideBlock(l)
    ensures TilesContent(f, d, SavedHeader(l), svc) == SavedTiles(l, svc.rules)
  {
    FitWhole(l.side.switch, SwitchTile(0, 0, 0, 0));
    RecordsDecode(l.side.switch, SWITCH_TILE_BYTES, SwitchBytes, BytesSwitch, SwitchTile(0, 0, 0, 0));
  }

  lemma {:induction false} TuneContentSaved(f: DataFile, d: seq<int>, l: Layer, svc: Services)
    requires WellFormedTiles(l) && l.kind.tune
    requires f.GetData(SideRef(d, 4)) == SideBlock(l)
    ensures TilesContent(f, d, SavedHeader(l), svc) == SavedTiles(l, svc.rules)
  {
    FitWhole(l.side.tune, TuneTile(0, 0));
    RecordsDecode(l.side.tune, TUNE_TILE_BYTES, TuneBytes, BytesTune, TuneTile(0, 0));
  }

  /** A plain or game layer reads all its tiles back from its data block (a game layer is never shifted: the version is current). */
  lemma {:induction false} PlainContentSaved(f: DataFile, d: seq<int>, l: Layer, svc: Services)
    requires WellFormedTiles(l) && !IsPhysics(l.kind) && Word(d, LAYER_ITEM_VERSION) == TILEMAP_VERSION
    requires f.GetData(Word(d, TM_DATA)) == EncodeAll(Fit(l.tiles, Area(l.width, l.height), ZERO_TILE), TileBytes)
    ensures TilesContent(f, d, SavedHeader(l), svc) == SavedTiles(l, svc.rules)
  {
    FitWhole(l.tiles, ZERO_TILE);
    TilesDecode(l.tiles);
    assert TILEMAP_VERSION != TILEMAP_VERSION_1;
  }

  /**
   * A tilemap item as the saver writes it, with its blocks in the file,
   * loads back as the layer's saved form, every field of it.
   */
  lemma {:induction false} TilemapLoadsSaved(f: DataFile, d: seq<int>, l: Layer, svc: Services, dataRef: int)
    requires WellFormedTiles(l)
    requires var flags := SaveFlags(l.kind);
      d == TilemapWords(l, flags, dataRef, SideRefs(if IsPhysics(l.kind) then flags else 0, dataRef + 1))
    requires IsPhysics(l.kind) ==> f.GetData(dataRef + 1) == SideBlock(l)
    requires !IsPhysics(l.kind) ==> f.GetData(dataRef) == EncodeAll(Fit(l.tiles, Area(l.width, l.height), ZERO_TILE), TileBytes)
    ensures LoadTiles(f, d, svc) == SavedTiles(l, svc.rules)
  {
    var flags := SaveFlags(l.kind);
    TilemapSideRefs(l, dataRef);
    TilesHeaderIs(l, dataRef, SideRefs(if IsPhysics(l.kind) then flags else 0, dataRef + 1));
    if !IsPhysics(l.kind) {
      PlainContentSaved(f, d, l, svc);
    } else if l.kind.tele {
      assert SideRef(d, 0) == dataRef + 1;
      TeleContentSaved(f, d, l, svc);
    } else if l.kind.speedup {
      assert SideRef(d, 1) == dataRef + 1;
      SpeedupContentSaved(f, d, l, svc);
    } else if l.kind.front {
      assert SideRef(d, 2) == dataRef + 1;
      FrontContentSaved(f, d, l, svc);
    } else if l.kind.switch {
      assert SideRef(d, 3) == dataRef + 1;
      SwitchContentSaved(f, d, l, svc);
    } else {
      assert SideRef(d, 4) == dataRef + 1;
      TuneContentSaved(f, d, l, svc);
    }
  }

  // ---------------------------------------------------------------------
  // Sections of the file

  /** `o'` continues `o`: its items and its blocks start with those of `o`. */
  predicate Grows(o: Out, o': Out)
  {
    o.items <= o'.items && o.blocks <= o'.blocks
  }

  /** The items written after `o`. */
  function Added(o: Out, o': Out): seq<Item>
    requires |o.items| <= |o'.items|
  {
    o'.items[|o.items|..]
  }

  predicate AllOf(items: seq<Item>, ts: set<ItemType>)
  {
    forall k :: 0 <= k < |items| ==> items[k].typ in ts
  }

  /** `o'` continues `o` with items of the types `ts` only. */
  predicate Extends(o: Out, o': Out, ts: set<ItemType>)
  {
    Grows(o, o') && AllOf(Added(o, o'), ts)
  }

  /** The item types of the group section: layers, automapper configs, groups and their extensions. */
  const GROUP_SECTION: set<ItemType> := {LayerType, AutoMapperConfigType, GroupType, GroupExType}

  lemma {:induction false} ExtendsTrans(o1: Out, o2: Out, o3: Out, ts: set<ItemType>)
    requires Extends(o1, o2, ts) && Extends(o2, o3, ts)
    ensures Extends(o1, o3, ts)
  {
    assert o3.items[..|o2.items|][..|o1.items|] == o3.items[..|o1.items|];
    assert o3.blocks[..|o2.blocks|][..|o1.blocks|] == o3.blocks[..|o1.blocks|];
    var a, b, c := Added(o1, o2), Added(o2, o3), Added(o1, o3);
    forall k | 0 <= k < |c|
      ensures c[k].typ in ts
    {
      if k < |a| {
        assert c[k] == a[k];
      } else {
        assert c[k] == b[k - |a|];
      }
    }
  }

  function AutomapperItems(o: Out): seq<Item>
  {
    OfType(o.items, AutoMapperConfigType)
  }

  function GroupExItems(o: Out): seq<Item>
  {
    OfType(o.items, GroupExType)
  }

  // ---------------------------------------------------------------------
  // Layers read back

  /** Every layer item written so far loads as the saved form of the layer it was written for. */
  predicate LayersLoad(f: DataFile, o: Out, ws: seq<Layer>, nImages: int, nSounds: int, svc: Services)
  {
    |LayerItems(o)| == |ws|
    && forall j :: 0 <= j < |ws| ==> LoadLayer(f, LayerItems(o)[j], nImages, nSounds, svc) == Some(LoadedForm(ws[j], svc.rules))
  }

  /** The items of type t after appending `b` to `a`, when `b` is all of type u: those of `a`, plus `b` itself if t is u. */
  lemma {:induction false} AppendTyped(a: seq<Item>, b: seq<Item>, u: ItemType, t: ItemType)
    requires forall k :: 0 <= k < |b| ==> b[k].typ == u
    ensures OfType(a + b, t) == OfType(a, t) + (if t == u then b else [])
  {
    OfTypeAppend(a, b, t);
    if t == u {
      OfTypeAll(b, u);
    } else {
      OfTypeOther(b, u, t);
    }
  }

  /** The items of one type after a layer: one layer item, then the automapper items after it. */
  lemma {:induction false} AppendedType(a: seq<Item>, it: Item, extra: seq<Item>, t: ItemType)
    requires it.typ == LayerType && forall k :: 0 <= k < |extra| ==> extra[k].typ == AutoMapperConfigType
    ensures OfType(a + [it] + extra, t)
            == OfType(a, t) + (if t == LayerType then [it] else []) + (if t == AutoMapperConfigType then extra else [])
  {
    AppendTyped(a, [it], LayerType, t);
    AppendTyped(a + [it], extra, AutoMapperConfigType, t);
  }

  lemma {:induction false} AppendedTypes(a: seq<Item>, it: Item, extra: seq<Item>)
    requires it.typ == LayerType && forall k :: 0 <= k < |extra| ==> extra[k].typ == AutoMapperConfigType
    ensures OfType(a + [it] + extra, LayerType) == OfType(a, LayerType) + [it]
    ensures OfType(a + [it] + extra, AutoMapperConfigType) == OfType(a, AutoMapperConfigType) + extra
    ensures OfType(a + [it] + extra, GroupExType) == OfType(a, GroupExType)
  {
    AppendedType(a, it, extra, LayerType);
    assert OfType(a, LayerType) + [it] + [] == OfType(a, LayerType) + [it];
    AppendedType(a, it, extra, AutoMapperConfigType);
    assert OfType(a, AutoMapperConfigType) + [] + extra == OfType(a, AutoMapperConfigType) + extra;
    AppendedType(a, it, extra, GroupExType);
    assert OfType(a, GroupExType) + [] + [] == OfType(a, GroupExType);
  }

  lemma {:induction false} LayersLoadSnoc(f: DataFile, o: Out, o': Out, ws: seq<Layer>, l: Layer, it: Item,
                                          nImages: int, nSounds: int, svc: Services)
    requires LayersLoad(f, o, ws, nImages, nSounds, svc) && LayerItems(o') == LayerItems(o) + [it]
    requires LoadLayer(f, it, nImages, nSounds, svc) == Some(LoadedForm(l, svc.rules))
    ensures LayersLoad(f, o', ws + [l], nImages, nSounds, svc)
  {
    var ws' := ws + [l];
    forall j | 0 <= j < |ws'|
      ensures LoadLayer(f, LayerItems(o')[j], nImages, nSounds, svc) == Some(LoadedForm(ws'[j], svc.rules))
    {
      if j < |ws| {
        assert LayerItems(o')[j] == LayerItems(o)[j] && ws'[j] == ws[j];
      }
    }
  }

  lemma {:induction false} AddedLayerTypes(o: Out, o': Out, it: Item, extra: seq<Item>)
    requires o'.items == o.items + [it] + extra && o.blocks <= o'.blocks
    requires it.typ == LayerType && forall k :: 0 <= k < |extra| ==> extra[k].typ == AutoMapperConfigType
    ensures Extends(o, o', GROUP_SECTION)
  {
    var added := Added(o, o');
    assert added == [it] + extra;
    forall k | 0 <= k < |added|
      ensures added[k].typ in GROUP_SECTION
    {
      if k > 0 {
        assert added[k] == extra[k - 1];
      }
    }
  }

  /** One layer item, and possibly automapper items after it, appended to the file. */
  lemma {:induction false} AppendLayerItem(f: DataFile, o: Out, o': Out, ws: seq<Layer>, l: Layer, it: Item, extra: seq<Item>,
                                           nImages: int, nSounds: int, svc: Services)
    requires LayersLoad(f, o, ws, nImages, nSounds, svc)
    requires o'.items == o.items + [it] + extra && o.blocks <= o'.blocks
    requires it.typ == LayerType && LoadLayer(f, it, nImages, nSounds, svc) == Some(LoadedForm(l, svc.rules))
    requires forall k :: 0 <= k < |extra| ==> extra[k].typ == AutoMapperConfigType
    ensures Extends(o, o', GROUP_SECTION) && LayersLoad(f, o', ws + [l], nImages, nSounds, svc)
    ensures AutomapperItems(o') == AutomapperItems(o) + extra
    ensures GroupExItems(o') == GroupExItems(o)
  {
    AddedLayerTypes(o, o', it, extra);
    AppendedTypes(o.items, it, extra);
    LayersLoadSnoc(f, o, o', ws, l, it, nImages, nSounds, svc);
  }

  /** The automapper item a layer adds: one for a plain tile layer, naming the group and the layer's place in it. */
  function AutomapperItemOf(s: SaveState, n: int, l: Layer): seq<Item>
  {
    if l.TilesLayer? && l.kind == PLAIN_KIND then [Item(AutoMapperConfigType, s.automapperCount, AutomapperWords(l, s.groupCount, n))]
    else []
  }

  /** What one layer adds to the group section, as the loader reads it back. */
  predicate LayerStepped(f: DataFile, s: SaveState, n: int, l: Layer, ws: seq<Layer>, nImages: int, nSounds: int, svc: Services)
  {
    var (s', n') := LayerOut(s, n, l);
    Extends(s.out, s'.out, GROUP_SECTION)
    && LayersLoad(f, s'.out, ws + (if Written(l) then [l] else []), nImages, nSounds, svc)
    && AutomapperItems(s'.out) == AutomapperItems(s.out) + AutomapperItemOf(s, n, l)
    && GroupExItems(s'.out) == GroupExItems(s.out)
    && n' == n + (if Written(l) then 1 else 0) && s'.groupCount == s.groupCount
  }

  /** The words of the tilemap item of a layer whose tile block is block dataRef. */
  function TileItemWords(l: Layer, dataRef: int): seq<int>
    requires l.TilesLayer?
  {
    var flags := SaveFlags(l.kind);
    TilemapWords(l, flags, dataRef, SideRefs(if IsPhysics(l.kind) then flags else 0, dataRef + 1))
  }

  /** What a tile layer writes: its tilemap item, the automapper item of a plain layer, and its blocks. */
  lemma {:induction false} TilesOutShape(s: SaveState, n: int, l: Layer)
    requires WellFormedTiles(l)
    ensures var o' := TilesOut(s, n, l).0.out;
      o'.items == s.out.items + [Item(LayerType, s.layerCount, TileItemWords(l, |s.out.blocks|))] + AutomapperItemOf(s, n, l)
    ensures IsPhysics(l.kind) ==>
      TilesOut(s, n, l).0.out.blocks == s.out.blocks + [seq(TILE_BYTES * Area(l.width, l.height), _ => 0), SideBlock(l)]
    ensures !IsPhysics(l.kind) ==>
      TilesOut(s, n, l).0.out.blocks == s.out.blocks + [EncodeAll(Fit(l.tiles, Area(l.width, l.height), ZERO_TILE), TileBytes)]
    ensures TilesOut(s, n, l).1 == n + 1 && TilesOut(s, n, l).0.groupCount == s.groupCount
  {
    KindRoundTrip(l.kind);
  }

  /** A tilemap item loads through the tile-layer branch of the loader. */
  lemma {:induction false} TilesItemLoads(f: DataFile, it: Item, nImages: int, nSounds: int, svc: Services)
    requires Word(it.data, LAYER_TYPE) == LAYERTYPE_TILES
    ensures LoadLayer(f, it, nImages, nSounds, svc) == Some(LoadTiles(f, it.data, svc))
  {
  }

  /** The blocks a tile layer wrote, read from a file that keeps them. */
  lemma {:induction false} TileBlocksKept(f: DataFile, s: SaveState, n: int, l: Layer)
    requires WellFormedTiles(l) && KeepsBlocks(TilesOut(s, n, l).0.out, f)
    ensures IsPhysics(l.kind) ==> f.GetData(|s.out.blocks| + 1) == SideBlock(l)
    ensures !IsPhysics(l.kind) ==> f.GetData(|s.out.blocks|) == EncodeAll(Fit(l.tiles, Area(l.width, l.height), ZERO_TILE), TileBytes)
  {
    var o := s.out;
    var o' := TilesOut(s, n, l).0.out;
    TilesOutShape(s, n, l);
    if IsPhysics(l.kind) {
      assert f.GetData(|o.blocks| + 1) == o'.blocks[|o.blocks| + 1];
    } else {
      assert f.GetData(|o.blocks|) == o'.blocks[|o.blocks|];
    }
  }

  /** The tilemap item of a layer, its blocks in the file, loads back as the layer's saved form. */
  lemma {:induction false} TileItemLoads(f: DataFile, it: Item, l: Layer, dataRef: int, nImages: int, nSounds: int, svc: Services)
    requires WellFormedTiles(l) && it.data == TileItemWords(l, dataRef)
    requires IsPhysics(l.kind) ==> f.GetData(dataRef + 1) == SideBlock(l)
    requires !IsPhysics(l.kind) ==> f.GetData(dataRef) == EncodeAll(Fit(l.tiles, Area(l.width, l.height), ZERO_TILE), TileBytes)
    ensures LoadLayer(f, it, nImages, nSounds, svc) == Some(LoadedForm(l, svc.rules))
  {
    TilemapLoadsSaved(f, it.data, l, svc, dataRef);
    TilesItemLoads(f, it, nImages, nSounds, svc);
  }

  lemma {:induction false} TilesStep(f: DataFile, s: SaveState, n: int, l: Layer, ws: seq<Layer>, nImages: int, nSounds: int, svc: Services)
    requires WellFormedTiles(l) && LayersLoad(f, s.out, ws, nImages, nSounds, svc)
    requires KeepsBlocks(LayerOut(s, n, l).0.out, f)
    ensures LayerStepped(f, s, n, l, ws, nImages, nSounds, svc)
  {
    var o := s.out;
    var o' := TilesOut(s, n, l).0.out;
    TilesOutShape(s, n, l);
    TileBlocksKept(f, s, n, l);
    var it := Item(LayerType, s.layerCount, TileItemWords(l, |o.blocks|));
    TileItemLoads(f, it, l, |o.blocks|, nImages, nSounds, svc);
    AppendLayerItem(f, o, o', ws, l, it, AutomapperItemOf(s, n, l), nImages, nSounds, svc);
  }

  lemma {:induction false} QuadsStep(f: DataFile, s: SaveState, n: int, l: Layer, ws: seq<Layer>, nImages: int, nSounds: int, svc: Services)
    requires l.QuadsLayer? && SaveableLayer(l, nImages, nSounds) && LayersLoad(f, s.out, ws, nImages, nSounds, svc)
    requires KeepsBlocks(LayerOut(s, n, l).0.out, f)
    ensures LayerStepped(f, s, n, l, ws, nImages, nSounds, svc)
  {
    if l.quads != [] {
      var o := s.out;
      var o' := QuadsOut(s, n, l).0.out;
      QuadsLayerRoundTrip(s, n, l, f, nImages, nSounds, svc);
      var it := o'.items[|o.items|];
      assert o'.items == o.items + [it] + [];
      AppendLayerItem(f, o, o', ws, l, it, [], nImages, nSounds, svc);
    } else {
      assert Added(s.out, s.out) == [];
      assert ws + [] == ws;
    }
  }

  lemma {:induction false} SoundsStep(f: DataFile, s: SaveState, n: int, l: Layer, ws: seq<Layer>, nImages: int, nSounds: int, svc: Services)
    requires l.SoundsLayer? && SaveableLayer(l, nImages, nSounds) && LayersLoad(f, s.out, ws, nImages, nSounds, svc)
    requires KeepsBlocks(LayerOut(s, n, l).0.out, f)
    ensures LayerStepped(f, s, n, l, ws, nImages, nSounds, svc)
  {
    if l.sources != [] {
      var o := s.out;
      var o' := SoundLayerOut(s, n, l).0.out;
      SoundLayerRoundTrip(s, n, l, f, nImages, nSounds, svc);
      var it := o'.items[|o.items|];
      assert o'.items == o.items + [it] + [];
      AppendLayerItem(f, o, o', ws, l, it, [], nImages, nSounds, svc);
    } else {
      assert Added(s.out, s.out) == [];
      assert ws + [] == ws;
    }
  }

  /**
   * One layer of a group: a written layer adds one layer item that loads
   * back as the layer's saved form, and a plain tile layer the automapper
   * item naming it; an empty quad or sound layer adds nothing.
   */
  lemma {:induction false} LayerStep(f: DataFile, s: SaveState, n: int, l: Layer, ws: seq<Layer>, nImages: int, nSounds: int, svc: Services)
    requires SaveableLayer(l, nImages, nSounds) && LayersLoad(f, s.out, ws, nImages, nSounds, svc)
    requires KeepsBlocks(LayerOut(s, n, l).0.out, f)
    ensures LayerStepped(f, s, n, l, ws, nImages, nSounds, svc)
  {
    match l
    case TilesLayer(_, _, _, _, _, _, _, _, _, _, _, _, _, _) => TilesStep(f, s, n, l, ws, nImages, nSounds, svc);
    case QuadsLayer(_, _, _, _) => QuadsStep(f, s, n, l, ws, nImages, nSounds, svc);
    case SoundsLayer(_, _, _, _) => SoundsStep(f, s, n, l, ws, nImages, nSounds, svc);
  }

  /** Writing a layer only appends items and blocks. */
  lemma {:induction false} LayerOutGrows(s: SaveState, n: int, l: Layer)
    ensures Grows(s.out, LayerOut(s, n, l).0.out)
  {
    if l.TilesLayer? {
      TilemapItem(s, n, l);
    }
  }

  lemma {:induction false} LayersOutGrows(s: SaveState, n: int, ls: seq<Layer>)
    ensures Grows(s.out, LayersOut(s, n, ls).0.out)
    decreases |ls|
  {
    if ls != [] {
      var r := LayersOut(s, n, ls[..|ls| - 1]);
      LayersOutGrows(s, n, ls[..|ls| - 1]);
      LayerOutGrows(r.0, r.1, ls[|ls| - 1]);
      GrowsTrans(s.out, r.0.out, LayersOut(s, n, ls).0.out);
    }
  }

  lemma {:induction false} GrowsTrans(o1: Out, o2: Out, o3: Out)
    requires Grows(o1, o2) && Grows(o2, o3)
    ensures Grows(o1, o3)
  {
    assert o3.items[..|o2.items|][..|o1.items|] == o3.items[..|o1.items|];
    assert o3.blocks[..|o2.blocks|][..|o1.blocks|] == o3.blocks[..|o1.blocks|];
  }

  // ---------------------------------------------------------------------
  // Groups in their saved form

  /** The layers of a group that are written, in order: all but the empty quad and sound layers. */
  function WrittenLayers(ls: seq<Layer>): (r: seq<Layer>)
    ensures |r| == WrittenCount(ls)
  {
    if ls == [] then [] else WrittenLayers(ls[..|ls| - 1]) + (if Written(ls[|ls| - 1]) then [ls[|ls| - 1]] else [])
  }

  /** The layers written for all the groups `gs`, group after group. */
  function AllWritten(gs: seq<Group>): (r: seq<Layer>)
    ensures |r| == LayerTotal(gs)
  {
    if gs == [] then [] else AllWritten(gs[..|gs| - 1]) + WrittenLayers(gs[|gs| - 1].layers)
  }

  /** Group k with the parallax zoom the loader computes from its group item and its extension item, and no layers yet. */
  function GroupShell(gs: seq<Group>, k: nat, svc: Services): Group
    requires k < |gs|
  {
    var g := gs[k];
    var d := GroupWords(g, LayerTotal(gs[..k]), WrittenCount(g.layers));
    g.(parallaxZoom := svc.parallaxZoom(d, Some([GROUPEX_VERSION, g.parallaxZoom])), layers := [])
  }

  /** Group k with its written layers, the first `w` of them with their automapper settings applied. */
  function PartGroup(gs: seq<Group>, k: nat, w: int, svc: Services): Group
    requires k < |gs|
  {
    var ws := WrittenLayers(gs[k].layers);
    GroupShell(gs, k, svc).(layers := seq(|ws|, j requires 0 <= j < |ws| => if j < w then SavedLayer(ws[j], svc.rules) else LoadedForm(ws[j], svc.rules)))
  }

  /** The groups after the automapper items of groups before K, and of the first w written layers of group K. */
  function Mixed(gs: seq<Group>, kk: nat, w: int, svc: Services): (r: seq<Group>)
    ensures |r| == |gs|
  {
    seq(|gs|, k requires 0 <= k < |gs| => PartGroup(gs, k, if k < kk then WrittenCount(gs[k].layers) else if k == kk then w else 0, svc))
  }

  /** The groups as the loader builds them from the group and layer items, before the automapper items. */
  function LoadedGroups(gs: seq<Group>, svc: Services): (r: seq<Group>)
    ensures |r| == |gs|
  {
    seq(|gs|, k requires 0 <= k < |gs| => PartGroup(gs, k, 0, svc))
  }

  /** The groups as they load back: written layers only, each in its saved form. */
  function SavedGroups(gs: seq<Group>, svc: Services): (r: seq<Group>)
    ensures |r| == |gs|
  {
    seq(|gs|, k requires 0 <= k < |gs| => PartGroup(gs, k, WrittenCount(gs[k].layers), svc))
  }

  lemma {:induction false} WrittenSnoc(ls: seq<Layer>, i: nat)
    requires i < |ls|
    ensures WrittenLayers(ls[..i + 1]) == WrittenLayers(ls[..i]) + (if Written(ls[i]) then [ls[i]] else [])
  {
    assert ls[..i + 1][..i] == ls[..i];
  }

  lemma {:induction false} WrittenPrefix(ls: seq<Layer>, i: nat)
    requires i <= |ls|
    ensures WrittenLayers(ls[..i]) <= WrittenLayers(ls)
    decreases |ls|
  {
    if i == |ls| {
      assert ls[..i] == ls;
    } else {
      var pre := ls[..|ls| - 1];
      assert pre[..i] == ls[..i];
      WrittenPrefix(pre, i);
    }
  }

  /** The written layer at position w of a group is the i-th layer, when i is written and w layers before it are. */
  lemma {:induction false} WrittenAt(ls: seq<Layer>, i: nat)
    requires i < |ls| && Written(ls[i])
    ensures WrittenCount(ls[..i]) < WrittenCount(ls) && WrittenLayers(ls)[WrittenCount(ls[..i])] == ls[i]
  {
    WrittenSnoc(ls, i);
    WrittenPrefix(ls, i + 1);
    var a := WrittenLayers(ls[..i + 1]);
    assert a[WrittenCount(ls[..i])] == ls[i];
  }

  // ---------------------------------------------------------------------
  // Automapper items read back

  /**
   * The automapper item of the w-th written layer of group K, a plain tile
   * layer, gives that layer its automapper settings and changes nothing
   * else: the groups move from Mixed(K, w) to Mixed(K, w + 1).
   */
  lemma {:induction false} AutomapperStep(gs: seq<Group>, kk: nat, w: nat, svc: Services, it: Item)
    requires kk < |gs| && w < WrittenCount(gs[kk].layers)
    requires var l := WrittenLayers(gs[kk].layers)[w];
      WellFormedTiles(l) && l.kind == PLAIN_KIND && it.data == AutomapperWords(l, kk, w)
    ensures ApplyAutomapper(Mixed(gs, kk, w, svc), it) == Mixed(gs, kk, w + 1, svc)
  {
    var x := Mixed(gs, kk, w, svc);
    var y := Mixed(gs, kk, w + 1, svc);
    var ws := WrittenLayers(gs[kk].layers);
    var l := ws[w];
    var d := it.data;
    assert x[kk] == PartGroup(gs, kk, w, svc);
    assert x[kk].layers[w] == LoadedForm(l, svc.rules);
    assert AutomapperTarget(x, d);
    var layer := x[kk].layers[w].(autoMapperConfig := Word(d, AM_CONFIG), seed := Word(d, AM_SEED),
                                   autoAutoMap := HasFlag(Word(d, AM_FLAGS), AUTOMAPPER_FLAG_AUTOMATIC));
    assert HasFlag(Word(d, AM_FLAGS), AUTOMAPPER_FLAG_AUTOMATIC) == l.autoAutoMap;
    assert layer == SavedLayer(l, svc.rules);
    var r := x[kk := x[kk].(layers := x[kk].layers[w := layer])];
    assert ApplyAutomapper(x, it) == r;
    forall k | 0 <= k < |gs|
      ensures r[k] == y[k]
    {
      if k == kk {
        assert r[k].layers == y[k].layers;
      }
    }
  }

  /** A written layer that is not a plain tile layer has no automapper item: its saved form is the loaded one. */
  lemma {:induction false} NoAutomapperStep(gs: seq<Group>, kk: nat, w: nat, svc: Services)
    requires kk < |gs| && w < WrittenCount(gs[kk].layers)
    requires var l := WrittenLayers(gs[kk].layers)[w]; !(WellFormedTiles(l) && l.kind == PLAIN_KIND)
    ensures Mixed(gs, kk, w, svc) == Mixed(gs, kk, w + 1, svc)
  {
    var x := Mixed(gs, kk, w, svc);
    var y := Mixed(gs, kk, w + 1, svc);
    forall k | 0 <= k < |gs|
      ensures x[k] == y[k]
    {
      if k == kk {
        assert x[k].layers == y[k].layers;
      }
    }
  }

  /** Automapper items appended one by one are applied one by one. */
  lemma {:induction false} ApplyOneMore(groups: seq<Group>, its: seq<Item>, it: Item)
    ensures ApplyAutomappers(groups, its + [it]) == ApplyAutomapper(ApplyAutomappers(groups, its), it)
  {
    assert (its + [it])[..|its|] == its;
  }

  lemma {:induction false} KeepsEarlier(o: Out, o': Out, f: DataFile)
    requires Grows(o, o') && KeepsBlocks(o', f)
    ensures KeepsBlocks(o, f)
  {
    assert f.blocks[..|o'.blocks|][..|o.blocks|] == f.blocks[..|o.blocks|];
  }

  // ---------------------------------------------------------------------
  // The layers of one group

  /** What the first i layers of group K, written from state s, give the loader: the layer items. */
  predicate GroupLayersLoad(f: DataFile, gs: seq<Group>, kk: nat, i: nat, s: SaveState, r: (SaveState, int), ws0: seq<Layer>,
                            nImages: int, nSounds: int, svc: Services)
    requires kk < |gs| && i <= |gs[kk].layers|
  {
    var ls := gs[kk].layers;
    Extends(s.out, r.0.out, GROUP_SECTION)
    && LayersLoad(f, r.0.out, ws0 + WrittenLayers(ls[..i]), nImages, nSounds, svc)
    && GroupExItems(r.0.out) == GroupExItems(s.out) && r.1 == WrittenCount(ls[..i]) && r.0.groupCount == kk
  }

  /** What the first i layers of group K give the loader: the automapper items, applied. */
  predicate GroupLayersMapped(gs: seq<Group>, kk: nat, i: nat, r: (SaveState, int), svc: Services)
    requires kk < |gs| && i <= |gs[kk].layers|
  {
    ApplyAutomappers(LoadedGroups(gs, svc), AutomapperItems(r.0.out)) == Mixed(gs, kk, WrittenCount(gs[kk].layers[..i]), svc)
  }

  /** The automapper items after one more layer of group K move the groups from Mixed(K, w) on to the next layer. */
  lemma {:induction false} AutomapperAdvance(gs: seq<Group>, kk: nat, i: nat, r: (SaveState, int), nImages: int, nSounds: int, svc: Services)
    requires kk < |gs| && 0 < i <= |gs[kk].layers| && SaveableLayer(gs[kk].layers[i - 1], nImages, nSounds)
    requires r.0.groupCount == kk && r.1 == WrittenCount(gs[kk].layers[..i - 1])
    requires ApplyAutomappers(LoadedGroups(gs, svc), AutomapperItems(r.0.out)) == Mixed(gs, kk, r.1, svc)
    ensures var l := gs[kk].layers[i - 1];
      ApplyAutomappers(LoadedGroups(gs, svc), AutomapperItems(r.0.out) + AutomapperItemOf(r.0, r.1, l))
      == Mixed(gs, kk, r.1 + (if Written(l) then 1 else 0), svc)
  {
    var ls := gs[kk].layers;
    var l := ls[i - 1];
    var w := r.1;
    var x := AutomapperItems(r.0.out);
    if Written(l) {
      WrittenAt(ls, i - 1);
      if l.TilesLayer? && l.kind == PLAIN_KIND {
        var it := AutomapperItemOf(r.0, r.1, l)[0];
        assert it.data == AutomapperWords(l, kk, w);
        assert x + AutomapperItemOf(r.0, r.1, l) == x + [it];
        ApplyOneMore(LoadedGroups(gs, svc), x, it);
        AutomapperStep(gs, kk, w, svc, it);
      } else {
        assert x + AutomapperItemOf(r.0, r.1, l) == x;
        NoAutomapperStep(gs, kk, w, svc);
      }
    } else {
      assert x + AutomapperItemOf(r.0, r.1, l) == x;
    }
  }

  /** LayerStepped, for a layer whose write moved the state from r to r'. */
  predicate SteppedTo(f: DataFile, r: (SaveState, int), r': (SaveState, int), l: Layer, ws: seq<Layer>,
                      nImages: int, nSounds: int, svc: Services)
  {
    Extends(r.0.out, r'.0.out, GROUP_SECTION)
    && LayersLoad(f, r'.0.out, ws + (if Written(l) then [l] else []), nImages, nSounds, svc)
    && AutomapperItems(r'.0.out) == AutomapperItems(r.0.out) + AutomapperItemOf(r.0, r.1, l)
    && GroupExItems(r'.0.out) == GroupExItems(r.0.out)
    && r'.1 == r.1 + (if Written(l) then 1 else 0) && r'.0.groupCount == r.0.groupCount
  }

  /** One more layer of group K, as the loader reads it: its item, and the automapper items it adds. */
  lemma {:induction false} GroupLayerLoads(f: DataFile, gs: seq<Group>, kk: nat, i: nat, s: SaveState, r: (SaveState, int),
                                           r': (SaveState, int), ws0: seq<Layer>, nImages: int, nSounds: int, svc: Services)
    requires kk < |gs| && 0 < i <= |gs[kk].layers|
    requires GroupLayersLoad(f, gs, kk, i - 1, s, r, ws0, nImages, nSounds, svc)
    requires SteppedTo(f, r, r', gs[kk].layers[i - 1], ws0 + WrittenLayers(gs[kk].layers[..i - 1]), nImages, nSounds, svc)
    ensures GroupLayersLoad(f, gs, kk, i, s, r', ws0, nImages, nSounds, svc)
  {
    var ls := gs[kk].layers;
    var pre := ls[..i - 1];
    var l := ls[i - 1];
    ExtendsTrans(s.out, r.0.out, r'.0.out, GROUP_SECTION);
    WrittenSnoc(ls, i - 1);
    var extra := if Written(l) then [l] else [];
    assert ws0 + WrittenLayers(pre) + extra == ws0 + WrittenLayers(ls[..i]);
  }

  /** One more layer of group K, as the automapper items see it. */
  lemma {:induction false} GroupLayerMapped(gs: seq<Group>, kk: nat, i: nat, r: (SaveState, int), r': (SaveState, int),
                                            nImages: int, nSounds: int, svc: Services)
    requires kk < |gs| && 0 < i <= |gs[kk].layers|
    requires SaveableLayer(gs[kk].layers[i - 1], nImages, nSounds)
    requires r.0.groupCount == kk && r.1 == WrittenCount(gs[kk].layers[..i - 1])
    requires GroupLayersMapped(gs, kk, i - 1, r, svc)
    requires AutomapperItems(r'.0.out) == AutomapperItems(r.0.out) + AutomapperItemOf(r.0, r.1, gs[kk].layers[i - 1])
    ensures GroupLayersMapped(gs, kk, i, r', svc)
  {
    var ls := gs[kk].layers;
    var l := ls[i - 1];
    var x := if Written(l) then 1 else 0;
    AutomapperAdvance(gs, kk, i, r, nImages, nSounds, svc);
    WrittenSnoc(ls, i - 1);
    assert WrittenCount(ls[..i]) == r.1 + x;
    var items := AutomapperItems(r.0.out) + AutomapperItemOf(r.0, r.1, l);
    assert ApplyAutomappers(LoadedGroups(gs, svc), items) == Mixed(gs, kk, r.1 + x, svc);
  }

  lemma {:induction false} GroupLayers(f: DataFile, gs: seq<Group>, kk: nat, i: nat, s: SaveState, ws0: seq<Layer>,
                                       nImages: int, nSounds: int, svc: Services)
    requires kk < |gs| && i <= |gs[kk].layers|
    requires forall j :: 0 <= j < |gs[kk].layers| ==> SaveableLayer(gs[kk].layers[j], nImages, nSounds)
    requires s.groupCount == kk && LayersLoad(f, s.out, ws0, nImages, nSounds, svc)
    requires ApplyAutomappers(LoadedGroups(gs, svc), AutomapperItems(s.out)) == Mixed(gs, kk, 0, svc)
    requires KeepsBlocks(LayersOut(s, 0, gs[kk].layers[..i]).0.out, f)
    ensures var r := LayersOut(s, 0, gs[kk].layers[..i]);
      GroupLayersLoad(f, gs, kk, i, s, r, ws0, nImages, nSounds, svc) && GroupLayersMapped(gs, kk, i, r, svc)
    decreases i
  {
    var ls := gs[kk].layers;
    if i == 0 {
      assert ls[..0] == [];
      assert Added(s.out, s.out) == [];
      assert ws0 + [] == ws0;
    } else {
      var pre := ls[..i - 1];
      assert ls[..i][..i - 1] == pre;
      var r := LayersOut(s, 0, pre);
      var r' := LayerOut(r.0, r.1, ls[i - 1]);
      assert LayersOut(s, 0, ls[..i]) == r';
      LayerOutGrows(r.0, r.1, ls[i - 1]);
      KeepsEarlier(r.0.out, r'.0.out, f);
      GroupLayers(f, gs, kk, i - 1, s, ws0, nImages, nSounds, svc);
      LayerStep(f, r.0, r.1, ls[i - 1], ws0 + WrittenLayers(pre), nImages, nSounds, svc);
      assert SteppedTo(f, r, r', ls[i - 1], ws0 + WrittenLayers(pre), nImages, nSounds, svc);
      GroupLayerLoads(f, gs, kk, i, s, r, r', ws0, nImages, nSounds, svc);
      GroupLayerMapped(gs, kk, i, r, r', nImages, nSounds, svc);
    }
  }

  // ---------------------------------------------------------------------
  // The group section

  lemma {:induction false} MixedStart(gs: seq<Group>, svc: Services)
    ensures Mixed(gs, 0, 0, svc) == LoadedGroups(gs, svc)
  {
    var x, y := Mixed(gs, 0, 0, svc), LoadedGroups(gs, svc);
    forall k | 0 <= k < |gs|
      ensures x[k] == y[k]
    {
    }
  }

  /** With every written layer of group K configured, the next group starts. */
  lemma {:induction false} MixedNext(gs: seq<Group>, kk: nat, svc: Services)
    requires kk < |gs|
    ensures Mixed(gs, kk, WrittenCount(gs[kk].layers), svc) == Mixed(gs, kk + 1, 0, svc)
  {
    var x, y := Mixed(gs, kk, WrittenCount(gs[kk].layers), svc), Mixed(gs, kk + 1, 0, svc);
    forall k | 0 <= k < |gs|
      ensures x[k] == y[k]
    {
    }
  }

  lemma {:induction false} MixedEnd(gs: seq<Group>, svc: Services)
    ensures Mixed(gs, |gs|, 0, svc) == SavedGroups(gs, svc)
  {
    var x, y := Mixed(gs, |gs|, 0, svc), SavedGroups(gs, svc);
    forall k | 0 <= k < |gs|
      ensures x[k] == y[k]
    {
    }
  }

  /** The group item and the group extension item that close a group. */
  lemma {:induction false} GroupTail(o: Out, o': Out, gi: Item, ge: Item)
    requires o'.items == o.items + [gi] + [ge] && o'.blocks == o.blocks
    requires gi.typ == GroupType && ge.typ == GroupExType
    ensures Extends(o, o', GROUP_SECTION)
    ensures LayerItems(o') == LayerItems(o) && AutomapperItems(o') == AutomapperItems(o)
    ensures GroupExItems(o') == GroupExItems(o) + [ge]
  {
    var o1 := Out(o.items + [gi], o.blocks);
    AppendOne(o, gi, LayerType);
    AppendOne(o, gi, AutoMapperConfigType);
    AppendOne(o, gi, GroupExType);
    AppendOne(o1, ge, LayerType);
    AppendOne(o1, ge, AutoMapperConfigType);
    AppendOne(o1, ge, GroupExType);
    assert Added(o, o') == [gi, ge];
  }

  lemma LayersLoadSameItems(f: DataFile, o: Out, o': Out, ws: seq<Layer>, nImages: int, nSounds: int, svc: Services)
    requires LayersLoad(f, o, ws, nImages, nSounds, svc) && LayerItems(o') == LayerItems(o)
    ensures LayersLoad(f, o', ws, nImages, nSounds, svc)
  {
  }

  /** The group extension items of the first n groups: numbered by group, holding the version and the parallax zoom. */
  function GroupExOf(gs: seq<Group>, n: nat): (r: seq<Item>)
    requires n <= |gs|
    ensures |r| == n
  {
    seq(n, k requires 0 <= k < n => Item(GroupExType, k, [GROUPEX_VERSION, gs[k].parallaxZoom]))
  }

  /** What the first K groups, written from state s0, give the loader: the layer and group extension items. */
  predicate GroupsRead(f: DataFile, gs: seq<Group>, kk: nat, s0: SaveState, t: SaveState, nImages: int, nSounds: int, svc: Services)
    requires kk <= |gs|
  {
    Extends(s0.out, t.out, GROUP_SECTION)
    && LayersLoad(f, t.out, AllWritten(gs[..kk]), nImages, nSounds, svc)
    && GroupExItems(t.out) == GroupExItems(s0.out) + GroupExOf(gs, kk)
    && t.groupCount == kk
  }

  /** What the first K groups give the loader: the automapper items, applied, configure all their layers. */
  predicate GroupsMapped(gs: seq<Group>, kk: nat, t: SaveState, svc: Services)
    requires kk <= |gs|
  {
    ApplyAutomappers(LoadedGroups(gs, svc), AutomapperItems(t.out)) == Mixed(gs, kk, 0, svc)
  }

  /** Group K, its layers written from t to r and closed by its two items in t', keeps GroupsRead. */
  lemma {:induction false} GroupSectionRead(f: DataFile, gs: seq<Group>, kk: nat, s0: SaveState, t: SaveState, r: (SaveState, int),
                                            t': SaveState, gi: Item, nImages: int, nSounds: int, svc: Services)
    requires kk < |gs|
    requires GroupsRead(f, gs, kk, s0, t, nImages, nSounds, svc)
    requires GroupLayersLoad(f, gs, kk, |gs[kk].layers|, t, r, AllWritten(gs[..kk]), nImages, nSounds, svc)
    requires t'.out.items == r.0.out.items + [gi] + [GroupExOf(gs, kk + 1)[kk]] && t'.out.blocks == r.0.out.blocks
    requires gi.typ == GroupType && t'.groupCount == kk + 1
    ensures GroupsRead(f, gs, kk + 1, s0, t', nImages, nSounds, svc)
  {
    var ls := gs[kk].layers;
    assert ls[..|ls|] == ls;
    var ge := GroupExOf(gs, kk + 1)[kk];
    GroupTail(r.0.out, t'.out, gi, ge);
    ExtendsTrans(s0.out, t.out, r.0.out, GROUP_SECTION);
    ExtendsTrans(s0.out, r.0.out, t'.out, GROUP_SECTION);
    AllWrittenSnoc(gs, kk);
    LayersLoadSameItems(f, r.0.out, t'.out, AllWritten(gs[..kk + 1]), nImages, nSounds, svc);
    GroupExOfSnoc(gs, GroupExItems(s0.out), kk);
  }

  lemma {:induction false} AllWrittenSnoc(gs: seq<Group>, kk: nat)
    requires kk < |gs|
    ensures AllWritten(gs[..kk + 1]) == AllWritten(gs[..kk]) + WrittenLayers(gs[kk].layers)
  {
    assert gs[..kk + 1][..kk] == gs[..kk];
  }

  lemma {:induction false} GroupExOfSnoc(gs: seq<Group>, a: seq<Item>, kk: nat)
    requires kk < |gs|
    ensures a + GroupExOf(gs, kk) + [GroupExOf(gs, kk + 1)[kk]] == a + GroupExOf(gs, kk + 1)
  {
    assert GroupExOf(gs, kk + 1) == GroupExOf(gs, kk) + [GroupExOf(gs, kk + 1)[kk]];
  }

  /** Group K, its layers written from t to r and closed by its two items in t', keeps GroupsMapped. */
  lemma {:induction false} GroupSectionMapped(gs: seq<Group>, kk: nat, r: (SaveState, int), t': SaveState, gi: Item, ge: Item, svc: Services)
    requires kk < |gs|
    requires GroupLayersMapped(gs, kk, |gs[kk].layers|, r, svc)
    requires t'.out.items == r.0.out.items + [gi] + [ge] && t'.out.blocks == r.0.out.blocks
    requires gi.typ == GroupType && ge.typ == GroupExType
    ensures GroupsMapped(gs, kk + 1, t', svc)
  {
    var ls := gs[kk].layers;
    assert ls[..|ls|] == ls;
    GroupTail(r.0.out, t'.out, gi, ge);
    MixedNext(gs, kk, svc);
  }

  /** Writing a group only appends items and blocks. */
  lemma {:induction false} GroupOutGrows(s: SaveState, g: Group)
    ensures Grows(s.out, GroupOut(s, g).out)
  {
    var r := LayersOut(s, 0, g.layers);
    LayersOutGrows(s, 0, g.layers);
    GrowsTrans(s.out, r.0.out, GroupOut(s, g).out);
  }

  /** Every layer of every group can be saved. */
  predicate LayersSaveable(gs: seq<Group>, nImages: int, nSounds: int)
  {
    forall k, j :: 0 <= k < |gs| && 0 <= j < |gs[k].layers| ==> SaveableLayer(gs[k].layers[j], nImages, nSounds)
  }

  lemma {:induction false} GroupsSection(f: DataFile, gs: seq<Group>, kk: nat, s0: SaveState, nImages: int, nSounds: int, svc: Services)
    requires kk <= |gs| && LayersSaveable(gs, nImages, nSounds)
    requires s0.groupCount == 0 && LayerItems(s0.out) == [] && AutomapperItems(s0.out) == []
    requires KeepsBlocks(GroupsOut(s0, gs[..kk]).out, f)
    ensures GroupsRead(f, gs, kk, s0, GroupsOut(s0, gs[..kk]), nImages, nSounds, svc)
    ensures GroupsMapped(gs, kk, GroupsOut(s0, gs[..kk]), svc)
    decreases kk
  {
    if kk == 0 {
      assert gs[..0] == [];
      assert Added(s0.out, s0.out) == [];
      MixedStart(gs, svc);
      assert GroupExItems(s0.out) + GroupExOf(gs, 0) == GroupExItems(s0.out);
    } else {
      var pre := gs[..kk - 1];
      assert gs[..kk][..kk - 1] == pre;
      var t := GroupsOut(s0, pre);
      var g := gs[kk - 1];
      var t' := GroupOut(t, g);
      assert GroupsOut(s0, gs[..kk]) == t';
      GroupOutGrows(t, g);
      KeepsEarlier(t.out, t'.out, f);
      GroupsSection(f, gs, kk - 1, s0, nImages, nSounds, svc);
      var r := LayersOut(t, 0, g.layers);
      assert g.layers[..|g.layers|] == g.layers;
      GroupLayers(f, gs, kk - 1, |g.layers|, t, AllWritten(pre), nImages, nSounds, svc);
      var gi := Item(GroupType, t.groupCount, GroupWords(g, t.layerCount, r.1));
      assert t'.out.items == r.0.out.items + [gi] + [GroupExOf(gs, kk)[kk - 1]];
      GroupSectionRead(f, gs, kk - 1, s0, t, r, t', gi, nImages, nSounds, svc);
      GroupSectionMapped(gs, kk - 1, r, t', gi, GroupExOf(gs, kk)[kk - 1], svc);
    }
  }

  // ---------------------------------------------------------------------
  // Reading the groups back

  lemma {:induction false} AllWrittenPrefix(gs: seq<Group>, i: nat)
    requires i <= |gs|
    ensures AllWritten(gs[..i]) <= AllWritten(gs)
    decreases |gs|
  {
    if i == |gs| {
      assert gs[..i] == gs;
    } else {
      var pre := gs[..|gs| - 1];
      assert pre[..i] == gs[..i];
      AllWrittenPrefix(pre, i);
    }
  }

  /** The j-th written layer of group k sits after the layers the groups before it wrote. */
  lemma {:induction false} AllWrittenAt(gs: seq<Group>, k: nat, j: nat)
    requires k < |gs| && j < WrittenCount(gs[k].layers)
    ensures LayerTotal(gs[..k]) + j < LayerTotal(gs)
    ensures AllWritten(gs)[LayerTotal(gs[..k]) + j] == WrittenLayers(gs[k].layers)[j]
  {
    AllWrittenSnoc(gs, k);
    AllWrittenPrefix(gs, k + 1);
    var a := AllWritten(gs[..k + 1]);
    assert a[LayerTotal(gs[..k]) + j] == WrittenLayers(gs[k].layers)[j];
  }

  /** The layers of all groups, in their loaded form, in the order they are written. */
  function LoadedLayers(gs: seq<Group>, svc: Services): (r: seq<Layer>)
    ensures |r| == LayerTotal(gs)
  {
    var ws := AllWritten(gs);
    seq(|ws|, j requires 0 <= j < |ws| => LoadedForm(ws[j], svc.rules))
  }

  /** The layers group k reads back: its written layers, in their loaded form. */
  lemma {:induction false} GroupLayersRead(f: DataFile, items: seq<Item>, gs: seq<Group>, k: nat, nImages: int, nSounds: int, svc: Services)
    requires k < |gs| && |items| == LayerTotal(gs)
    requires forall j :: 0 <= j < |items| ==> LoadsAt(f, items, LoadedLayers(gs, svc), j, nImages, nSounds, svc)
    ensures LoadGroupLayers(f, items, LayerTotal(gs[..k]), WrittenCount(gs[k].layers), nImages, nSounds, svc)
            == PartGroup(gs, k, 0, svc).layers
  {
    var ws := WrittenLayers(gs[k].layers);
    var start := LayerTotal(gs[..k]);
    var lds := LoadedLayers(gs, svc);
    AllWrittenSnoc(gs, k);
    AllWrittenPrefix(gs, k + 1);
    ReadLayers(f, items, lds, start, |ws|, nImages, nSounds, svc);
    var got := lds[start..start + |ws|];
    var want := PartGroup(gs, k, 0, svc).layers;
    forall j | 0 <= j < |ws|
      ensures got[j] == want[j]
    {
      AllWrittenAt(gs, k, j);
    }
  }

  /** The facts about a file that the groups are read from. */
  predicate GroupsInFile(f: DataFile, gs: seq<Group>, s0: SaveState, nImages: int, nSounds: int, svc: Services)
  {
    var items := f.GetType(LayerType);
    s0.groupCount == 0 && s0.layerCount == 0 && f.GetType(GroupType) == GroupItemsOf(s0, gs)
    && f.GetType(GroupExType) == GroupExOf(gs, |gs|)
    && |items| == LayerTotal(gs)
    && (forall j :: 0 <= j < |items| ==> LoadsAt(f, items, LoadedLayers(gs, svc), j, nImages, nSounds, svc))
    && forall k :: 0 <= k < |gs| ==> |gs[k].name| == NAME_WORDS
  }

  /** Group k loads back as its shell with its written layers in their loaded form. */
  lemma {:induction false} GroupRead(f: DataFile, gs: seq<Group>, s0: SaveState, k: nat, nImages: int, nSounds: int, svc: Services)
    requires k < |gs| && GroupsInFile(f, gs, s0, nImages, nSounds, svc)
    ensures var gi := f.GetType(GroupType)[k];
      GroupVersionOk(gi.data) && LoadGroup(f, k, gi, nImages, nSounds, svc) == PartGroup(gs, k, 0, svc)
  {
    var gi := f.GetType(GroupType)[k];
    assert gi == GroupItemAt(s0, gs, k);
    var d := gi.data;
    var ex := ExData(f.GetType(GroupExType), k);
    assert ex == Some([GROUPEX_VERSION, gs[k].parallaxZoom]);
    GroupHeaderRoundTrip(gs[k], LayerTotal(gs[..k]), WrittenCount(gs[k].layers), ex, svc);
    GroupLayersRead(f, f.GetType(LayerType), gs, k, nImages, nSounds, svc);
  }

  lemma {:induction false} GroupsReadBack(f: DataFile, gs: seq<Group>, s0: SaveState, n: nat, nImages: int, nSounds: int, svc: Services)
    requires n <= |gs| && GroupsInFile(f, gs, s0, nImages, nSounds, svc)
    ensures n <= |f.GetType(GroupType)| && LoadGroups(f, n, nImages, nSounds, svc) == LoadedGroups(gs, svc)[..n]
  {
    assert |f.GetType(GroupType)| == |gs|;
    if n > 0 {
      GroupsReadBack(f, gs, s0, n - 1, nImages, nSounds, svc);
      GroupRead(f, gs, s0, n - 1, nImages, nSounds, svc);
      PrefixSnoc(LoadedGroups(gs, svc), n);
    }
  }

  // ---------------------------------------------------------------------
  // Images and sounds

  /** An image as it loads back from a saved file: an external one as the image directory gives it, an embedded one as RGBA. */
  function SavedImage(img: Image, svc: Services): Image
  {
    if img.external != 0 then
      match svc.loadPng(MAPRES_DIR + img.name + PNG_SUFFIX)
      case Some(png) => png.(external := 1, name := img.name)
      case None => EMPTY_IMAGE.(external := img.external, name := img.name)
    else img.(format := FormatRGBA, data := SavedPixels(img))
  }

  function SavedImages(imgs: seq<Image>, svc: Services): (r: seq<Image>)
    ensures |r| == |imgs|
  {
    seq(|imgs|, i requires 0 <= i < |imgs| => SavedImage(imgs[i], svc))
  }

  /** Appending after a prefix adds to what was added before. */
  lemma {:induction false} AddedSnoc(o: Out, p: Out, o': Out, it: Item)
    requires Grows(o, p) && Grows(p, o') && Added(p, o') == [it]
    ensures Grows(o, o') && Added(o, o') == Added(o, p) + [it]
  {
    GrowsTrans(o, p, o');
    assert o'.items == p.items + [it];
    assert p.items == o.items + Added(o, p);
  }

  /** One image item: it loads back as the image in its saved form. */
  lemma {:induction false} ImageItem(o: Out, i: int, img: Image, f: DataFile, svc: Services)
    requires IsCString(img.name) && KeepsBlocks(ImageOut(o, i, img), f)
    ensures var o' := ImageOut(o, i, img);
      Grows(o, o') && Added(o, o') == [o'.items[|o.items|]] && o'.items[|o.items|].typ == ImageType
      && LoadImage(f, o'.items[|o.items|], svc) == SavedImage(img, svc)
  {
    if img.external != 0 {
      ExternalImageRoundTrip(o, i, img, f, svc);
    } else {
      EmbeddedImageRoundTrip(o, i, img, f, svc);
    }
  }

  lemma {:induction false} LoadImagesSnoc(f: DataFile, its: seq<Item>, it: Item, svc: Services)
    ensures LoadImages(f, its + [it], svc) == LoadImages(f, its, svc) + [LoadImage(f, it, svc)]
  {
    assert (its + [it])[..|its|] == its;
  }

  /** The image section: one image item per image, in order, each loading back as the image in its saved form. */
  lemma {:induction false} ImagesSection(o: Out, imgs: seq<Image>, f: DataFile, svc: Services)
    requires forall i :: 0 <= i < |imgs| ==> IsCString(imgs[i].name)
    requires KeepsBlocks(ImagesOut(o, imgs), f)
    ensures var o' := ImagesOut(o, imgs);
      Grows(o, o') && AllOf(Added(o, o'), {ImageType}) && LoadImages(f, Added(o, o'), svc) == SavedImages(imgs, svc)
    decreases |imgs|
  {
    if imgs == [] {
      assert Added(o, o) == [];
    } else {
      var n := |imgs| - 1;
      var pre := imgs[..n];
      var p := ImagesOut(o, pre);
      var o' := ImageOut(p, n, imgs[n]);
      ImageItem(p, n, imgs[n], f, svc);
      KeepsEarlier(p, o', f);
      ImagesSection(o, pre, f, svc);
      var it := o'.items[|p.items|];
      AddedSnoc(o, p, o', it);
      ImageSectionStep(f, Added(o, p), imgs, it, svc);
    }
  }

  lemma {:induction false} ImageSectionStep(f: DataFile, a: seq<Item>, imgs: seq<Image>, it: Item, svc: Services)
    requires imgs != [] && AllOf(a, {ImageType}) && LoadImages(f, a, svc) == SavedImages(imgs[..|imgs| - 1], svc)
    requires it.typ == ImageType && LoadImage(f, it, svc) == SavedImage(imgs[|imgs| - 1], svc)
    ensures AllOf(a + [it], {ImageType}) && LoadImages(f, a + [it], svc) == SavedImages(imgs, svc)
  {
    LoadImagesSnoc(f, a, it, svc);
    assert SavedImages(imgs, svc) == SavedImages(imgs[..|imgs| - 1], svc) + [SavedImage(imgs[|imgs| - 1], svc)];
  }

  lemma {:induction false} LoadSoundsSnoc(f: DataFile, its: seq<Item>, it: Item, svc: Services)
    ensures LoadSounds(f, its + [it], svc) == LoadSounds(f, its, svc) + [LoadSound(f, it, svc)]
  {
    assert (its + [it])[..|its|] == its;
  }

  /** One sound item: it loads back as the sound. */
  lemma {:induction false} SoundItem(o: Out, i: int, snd: Sound, f: DataFile, svc: Services)
    requires IsCString(snd.name) && KeepsBlocks(SoundOut(o, i, snd), f)
    ensures var o' := SoundOut(o, i, snd);
      Grows(o, o') && Added(o, o') == [o'.items[|o.items|]] && o'.items[|o.items|].typ == SoundType
      && LoadSound(f, o'.items[|o.items|], svc) == snd
  {
    SoundRoundTrip(o, i, snd, f, svc);
  }

  /** The sound section: one sound item per sound, in order, each loading back as the sound. */
  lemma {:induction false} SoundsSection(o: Out, snds: seq<Sound>, f: DataFile, svc: Services)
    requires forall i :: 0 <= i < |snds| ==> IsCString(snds[i].name)
    requires KeepsBlocks(SoundsOut(o, snds), f)
    ensures var o' := SoundsOut(o, snds);
      Grows(o, o') && AllOf(Added(o, o'), {SoundType}) && LoadSounds(f, Added(o, o'), svc) == snds
    decreases |snds|
  {
    if snds == [] {
      assert Added(o, o) == [];
    } else {
      var n := |snds| - 1;
      var pre := snds[..n];
      var p := SoundsOut(o, pre);
      var o' := SoundOut(p, n, snds[n]);
      SoundItem(p, n, snds[n], f, svc);
      KeepsEarlier(p, o', f);
      SoundsSection(o, pre, f, svc);
      var it := o'.items[|p.items|];
      AddedSnoc(o, p, o', it);
      SoundSectionStep(f, Added(o, p), snds, it, svc);
    }
  }

  lemma {:induction false} SoundSectionStep(f: DataFile, a: seq<Item>, snds: seq<Sound>, it: Item, svc: Services)
    requires snds != [] && AllOf(a, {SoundType}) && LoadSounds(f, a, svc) == snds[..|snds| - 1]
    requires it.typ == SoundType && LoadSound(f, it, svc) == snds[|snds| - 1]
    ensures AllOf(a + [it], {SoundType}) && LoadSounds(f, a + [it], svc) == snds
  {
    LoadSoundsSnoc(f, a, it, svc);
    assert snds == snds[..|snds| - 1] + [snds[|snds| - 1]];
  }
}
