/**
 * The loops of CEditorMap::Load, section by section, each proved to build
 * what the load specification says the file holds.  They read the data file
 * and return values; the map's fields are assigned from them in
 * EditorMap.Load.
 */
module MapLoader {
  import opened Container
  import opened MapItems
  import opened MapModel
  import opened LoadSpec

  // ---------------------------------------------------------------------
  // Map info and settings

  /** A NUL found after `len` non-NUL bytes (or the end of the block) ends the C string there. */
  lemma {:induction false} CStrUpTo(b: seq<byte>, len: nat)
    requires len <= |b|
    requires forall k :: 0 <= k < len ==> b[k] != 0
    requires len == |b| || b[len] == 0
    ensures CStr(b) == b[..len]
    decreases len
  {
    if len > 0 {
      CStrUpTo(b[1..], len - 1);
      assert [b[0]] + b[1..][..len - 1] == b[..len];
    }
  }

  /** str_length: the number of bytes before the first NUL at or after `pos`, or before the end. */
  method StrLength(b: seq<byte>, pos: nat) returns (len: nat)
    requires pos <= |b|
    ensures pos + len <= |b|
    ensures CStr(b[pos..]) == b[pos..pos + len]
  {
    len := 0;
    while pos + len < |b| && b[pos + len] != 0
      invariant pos + len <= |b|
      invariant forall k :: pos <= k < pos + len ==> b[k] != 0
    {
      len := len + 1;
    }
    CStrUpTo(b[pos..], len);
  }

  /** The bytes from `pos` on; empty once the cursor has passed the end. */
  function Rest(b: seq<byte>, pos: nat): seq<byte>
  {
    if pos <= |b| then b[pos..] else []
  }

  /** Splitting from the cursor yields the command there, then the split from past its NUL. */
  lemma {:induction false} SplitAtCommand(b: seq<byte>, pos: nat, len: nat)
    requires pos + len <= |b| && pos < |b|
    requires CStr(b[pos..]) == b[pos..pos + len]
    ensures SplitSettings(Rest(b, pos)) == [b[pos..pos + len]] + SplitSettings(Rest(b, pos + len + 1))
  {
    var r := b[pos..];
    var cmd := b[pos..pos + len];
    assert Rest(b, pos) == r;
    assert |CStr(r)| == len;
    var after := if len < |r| then r[len + 1..] else [];
    assert SplitSettings(r) == [cmd] + SplitSettings(after);
    if pos + len < |b| {
      assert after == b[pos + len + 1..];
    }
    assert Rest(b, pos + len + 1) == after;
  }

  /** The same split, with the command and the next cursor named. */
  lemma {:induction false} SplitStep(b: seq<byte>, pos: nat, len: nat, cmd: seq<byte>, next: nat)
    requires pos + len <= |b|
    requires cmd == b[pos..pos + len] && next == pos + len + 1
    requires SplitSettings(Rest(b, pos)) == [b[pos..pos + len]] + SplitSettings(Rest(b, pos + len + 1))
    ensures SplitSettings(Rest(b, pos)) == [cmd] + SplitSettings(Rest(b, next))
  {
  }

  /** One step of the scan: the command at the cursor, and the cursor past its NUL. */
  method NextCommand(b: seq<byte>, pos: nat) returns (cmd: seq<byte>, next: nat)
    requires pos < |b|
    ensures next > pos
    ensures SplitSettings(Rest(b, pos)) == [cmd] + SplitSettings(Rest(b, next))
  {
    var len := StrLength(b, pos);
    cmd, next := b[pos..pos + len], pos + len + 1;
    SplitAtCommand(b, pos, len);
    SplitStep(b, pos, len, cmd, next);
  }

  /** The settings block scanned string by string: each string and its NUL advance the cursor. */
  method SplitSettingsBlock(b: seq<byte>) returns (cmds: seq<seq<byte>>)
    ensures cmds == SplitSettings(b)
  {
    cmds := [];
    var pos := 0;
    assert Rest(b, 0) == b;
    while pos < |b|
      invariant cmds + SplitSettings(Rest(b, pos)) == SplitSettings(b)
      decreases |b| - pos
    {
      var cmd, next := NextCommand(b, pos);
      cmds, pos := cmds + [cmd], next;
    }
    assert Rest(b, pos) == [];
  }

  /** Once the info loop has stopped, later items change nothing. */
  lemma {:induction false} InfoFoldStopped(f: DataFile, st: InfoState, its: seq<Item>, itemSize: int, j: nat)
    requires j <= |its|
    requires InfoFold(f, st, its[..j], itemSize).stopped
    ensures InfoFold(f, st, its, itemSize) == InfoFold(f, st, its[..j], itemSize)
    decreases |its|
  {
    if j == |its| {
      assert its[..j] == its;
    } else {
      var pre := its[..|its| - 1];
      assert pre[..j] == its[..j];
      InfoFoldStopped(f, st, pre, itemSize, j);
    }
  }

  /** One info item: its strings, then its settings unless the item is not one the loader can use. */
  method ReadInfoItem(f: DataFile, st: InfoState, it: Item, itemSize: int) returns (st': InfoState)
    requires !st.stopped
    ensures st' == InfoStep(f, st, it, itemSize)
  {
    st' := st;
    var d := it.data;
    if it.id == 0 {
      var info := st.info;
      if Word(d, INFO_AUTHOR) > -1 {
        info := info.(author := CStr(f.GetData(Word(d, INFO_AUTHOR))));
      }
      if Word(d, INFO_MAP_VERSION) > -1 {
        info := info.(version := CStr(f.GetData(Word(d, INFO_MAP_VERSION))));
      }
      if Word(d, INFO_CREDITS) > -1 {
        info := info.(credits := CStr(f.GetData(Word(d, INFO_CREDITS))));
      }
      if Word(d, INFO_LICENSE) > -1 {
        info := info.(license := CStr(f.GetData(Word(d, INFO_LICENSE))));
      }
      if Word(d, 0) != INFO_VERSION || itemSize < 4 * INFO_WORDS || !(Word(d, INFO_SETTINGS) > -1) {
        st' := InfoState(info, st.settings, true);
      } else {
        var cmds := SplitSettingsBlock(f.GetData(Word(d, INFO_SETTINGS)));
        st' := InfoState(info, st.settings + cmds, false);
      }
    }
  }

  method ReadInfo(f: DataFile) returns (st: InfoState)
    ensures st == LoadInfo(f)
  {
    var its := f.GetType(InfoType);
    var itemSize := InfoItemSize(its);
    st := InfoState(EMPTY_INFO, [], false);
    ghost var st0 := st;
    var i := 0;
    while i < |its|
      invariant 0 <= i <= |its|
      invariant st == InfoFold(f, st0, its[..i], itemSize) && !st.stopped
    {
      assert its[..i + 1][..i] == its[..i];
      st := ReadInfoItem(f, st, its[i], itemSize);
      if st.stopped {
        InfoFoldStopped(f, st0, its, itemSize, i + 1);
        return;
      }
      i := i + 1;
    }
    assert its[..i] == its;
  }

  // ---------------------------------------------------------------------
  // Images and sounds

  method ReadImages(f: DataFile, svc: Services) returns (images: seq<Image>)
    ensures images == LoadImages(f, f.GetType(ImageType), svc)
  {
    var its := f.GetType(ImageType);
    images := [];
    var i := 0;
    while i < |its|
      invariant 0 <= i <= |its|
      invariant images == LoadImages(f, its[..i], svc)
    {
      assert its[..i + 1][..i] == its[..i];
      images := images + [LoadImage(f, its[i], svc)];
      i := i + 1;
    }
    assert its[..i] == its;
  }

  method ReadSounds(f: DataFile, svc: Services) returns (sounds: seq<Sound>)
    ensures sounds == LoadSounds(f, f.GetType(SoundType), svc)
  {
    var its := f.GetType(SoundType);
    sounds := [];
    var i := 0;
    while i < |its|
      invariant 0 <= i <= |its|
      invariant sounds == LoadSounds(f, its[..i], svc)
    {
      assert its[..i + 1][..i] == its[..i];
      sounds := sounds + [LoadSound(f, its[i], svc)];
      i := i + 1;
    }
    assert its[..i] == its;
  }

  // ---------------------------------------------------------------------
  // Tile layers

  /** The per-tile pass over a side array: tile `i` becomes `step` of itself and side tile `i`. */
  method UpdateTiles<T>(tiles: seq<Tile>, side: seq<T>, step: (Tile, T) -> Tile) returns (r: seq<Tile>)
    requires |side| == |tiles|
    ensures |r| == |tiles|
    ensures forall i :: 0 <= i < |tiles| ==> r[i] == step(tiles[i], side[i])
  {
    r := tiles;
    var i := 0;
    while i < |tiles|
      invariant 0 <= i <= |tiles| && |r| == |tiles|
      invariant forall k :: 0 <= k < i ==> r[k] == step(tiles[k], side[k])
      invariant forall k :: i <= k < |tiles| ==> r[k] == tiles[k]
    {
      r := r[i := step(r[i], side[i])];
      i := i + 1;
    }
  }

  /** The pass over a first-version game layer: every non-empty index moves up by the entity offset. */
  method OffsetEntities(tiles: seq<Tile>, offset: int) returns (r: seq<Tile>)
    ensures |r| == |tiles|
    ensures forall i :: 0 <= i < |tiles| ==> r[i] == OffsetIndex(tiles[i], offset)
  {
    r := tiles;
    var i := 0;
    while i < |tiles|
      invariant 0 <= i <= |tiles| && |r| == |tiles|
      invariant forall k :: 0 <= k < i ==> r[k] == OffsetIndex(tiles[k], offset)
      invariant forall k :: i <= k < |tiles| ==> r[k] == tiles[k]
    {
      if r[i].index != 0 {
        r := r[i := r[i].(index := (r[i].index as int + offset) % 0x100)];
      }
      i := i + 1;
    }
  }

  method ReadTilesLayer(f: DataFile, d: seq<int>, svc: Services) returns (l: Layer)
    ensures l == LoadTiles(f, d, svc)
  {
    l := ReadTiles(f, d, TilesHeader(d), svc);
  }

  /** The tiles of a tile layer and of the side array its kind carries, read into the layer built from its header. */
  method ReadTiles(f: DataFile, d: seq<int>, header: Layer, svc: Services) returns (l: Layer)
    requires header.TilesLayer? && |header.tiles| == Area(header.width, header.height)
    ensures l == TilesContent(f, d, header, svc)
  {
    var rules := svc.rules;
    l := header;
    var n := Area(l.width, l.height);
    if l.kind.tele {
      var b := f.GetData(SideRef(d, 0));
      if |b| >= TELE_TILE_BYTES * n {
        var side := DecodeSide(b, n, TELE_TILE_BYTES, BytesTele, TeleTile(0, 0));
        var tiles := UpdateTiles(l.tiles, side, (t: Tile, s: TeleTile) => t.(index := TeleIndex(rules, s)));
        l := l.(side := l.side.(tele := side), tiles := tiles);
      }
    } else if l.kind.speedup {
      var b := f.GetData(SideRef(d, 1));
      if |b| >= SPEEDUP_TILE_BYTES * n {
        var side := DecodeSide(b, n, SPEEDUP_TILE_BYTES, BytesSpeedup, SpeedupTile(0, 0, 0, 0));
        var tiles := UpdateTiles(l.tiles, side, (t: Tile, s: SpeedupTile) => t.(index := SpeedupIndex(rules, s)));
        l := l.(side := l.side.(speedup := side), tiles := tiles);
      }
    } else if l.kind.front {
      l := l.(tiles := ExtractTiles(Word(d, LAYER_ITEM_VERSION), f.GetData(SideRef(d, 2)), n, svc));
    } else if l.kind.switch {
      var b := f.GetData(SideRef(d, 3));
      if |b| >= SWITCH_TILE_BYTES * n {
        var side := DecodeSide(b, n, SWITCH_TILE_BYTES, BytesSwitch, SwitchTile(0, 0, 0, 0));
        var tiles := UpdateTiles(l.tiles, side, (t: Tile, s: SwitchTile) => SwitchTileOf(rules, t, s));
        l := l.(side := l.side.(switch := side), tiles := tiles);
      }
    } else if l.kind.tune {
      var b := f.GetData(SideRef(d, 4));
      if |b| >= TUNE_TILE_BYTES * n {
        var side := DecodeSide(b, n, TUNE_TILE_BYTES, BytesTune, TuneTile(0, 0));
        var tiles := UpdateTiles(l.tiles, side, (t: Tile, s: TuneTile) => t.(index := TuneIndex(rules, s)));
        l := l.(side := l.side.(tune := side), tiles := tiles);
      }
    } else {
      var tiles := ExtractTiles(Word(d, LAYER_ITEM_VERSION), f.GetData(Word(d, TM_DATA)), n, svc);
      if l.kind.game && Word(d, LAYER_ITEM_VERSION) == TILEMAP_VERSION_1 {
        tiles := OffsetEntities(tiles, rules.entityOffset);
      }
      l := l.(tiles := tiles);
    }
  }

  // ---------------------------------------------------------------------
  // Quad and sound layers

  /** The pass over an old sound layer's sources, upgrading each one. */
  method UpgradeSources(recs: seq<seq<int32>>) returns (sources: seq<SoundSource>)
    ensures |sources| == |recs|
    ensures forall k :: 0 <= k < |recs| ==> sources[k] == UpgradeSource(WordsSourceV0(recs[k]))
  {
    sources := [];
    var i := 0;
    while i < |recs|
      invariant 0 <= i <= |recs| && |sources| == i
      invariant forall k :: 0 <= k < i ==> sources[k] == UpgradeSource(WordsSourceV0(recs[k]))
    {
      var old0 := WordsSourceV0(recs[i]);
      var s := SoundSource(old0.posX, old0.posY, old0.loop, 1, old0.timeDelay, 0, old0.posEnv, old0.posEnvOffset,
                           old0.soundEnv, old0.soundEnvOffset, SHAPE_CIRCLE, old0.falloffDistance, 0);
      sources := sources + [s];
      i := i + 1;
    }
  }

  method ReadLayer(f: DataFile, it: Item, nImages: int, nSounds: int, svc: Services) returns (r: Option<Layer>)
    ensures r == LoadLayer(f, it, nImages, nSounds, svc)
  {
    var d := it.data;
    var t := Word(d, LAYER_TYPE);
    if t == LAYERTYPE_TILES {
      var l := ReadTilesLayer(f, d, svc);
      r := Some(l);
    } else if t == LAYERTYPE_QUADS {
      r := Some(LoadQuads(f, d, nImages));
    } else if t == LAYERTYPE_SOUNDS_DEPRECATED && SoundsVersionOk(d) {
      var n := NonNeg(Word(d, QL_NUM));
      var recs := Records(f.GetDataSwapped(Word(d, QL_DATA)), n, SOURCE_V0_WORDS);
      var sources := UpgradeSources(recs);
      assert sources == seq(n, k requires 0 <= k < n => UpgradeSource(WordsSourceV0(recs[k])));
      r := Some(SoundsLayer(Word(d, LAYER_FLAGS), FixRef(Word(d, QL_IMAGE), nSounds), Slice(d, QL_NAME, NAME_WORDS), sources));
    } else if t == LAYERTYPE_SOUNDS && SoundsVersionOk(d) {
      r := Some(LoadSoundsLayer(f, d, nSounds, false));
    } else {
      r := None;
    }
  }

  // ---------------------------------------------------------------------
  // Groups

  /** One more index of the layer loop appends the layer loaded there, if any. */
  lemma KeptStep(results: seq<Option<Layer>>, start: int, l: nat)
    ensures KeptLayers(results, start, l + 1)
         == KeptLayers(results, start, l) + (match ResultAt(results, start + l) case Some(layer) => [layer] case None => [])
  {
  }

  /** The layer item at index `idx` of the layer items, when there is one and it loads. */
  method ReadLayerAt(f: DataFile, layerItems: seq<Item>, idx: int, nImages: int, nSounds: int, svc: Services)
    returns (layer: Option<Layer>)
    ensures layer == ResultAt(LayerResults(f, layerItems, nImages, nSounds, svc), idx)
  {
    layer := None;
    if 0 <= idx < |layerItems| {
      layer := ReadLayer(f, layerItems[idx], nImages, nSounds, svc);
    }
  }

  /** The group's layers so far, with layer item start + l added when it loads. */
  method AddLayerAt(f: DataFile, layerItems: seq<Item>, start: int, l: nat, nImages: int, nSounds: int, svc: Services,
                    ls: seq<Layer>)
    returns (ls': seq<Layer>)
    requires ls == LoadGroupLayers(f, layerItems, start, l, nImages, nSounds, svc)
    ensures ls' == LoadGroupLayers(f, layerItems, start, l + 1, nImages, nSounds, svc)
  {
    KeptStep(LayerResults(f, layerItems, nImages, nSounds, svc), start, l);
    var layer := ReadLayerAt(f, layerItems, start + l, nImages, nSounds, svc);
    ls' := ls;
    if layer.Some? {
      ls' := ls + [layer.value];
    }
  }

  method ReadGroupLayers(f: DataFile, layerItems: seq<Item>, start: int, n: nat, nImages: int, nSounds: int, svc: Services)
    returns (ls: seq<Layer>)
    ensures ls == LoadGroupLayers(f, layerItems, start, n, nImages, nSounds, svc)
  {
    ls := [];
    var l := 0;
    while l < n
      invariant 0 <= l <= n
      invariant ls == LoadGroupLayers(f, layerItems, start, l, nImages, nSounds, svc)
    {
      ls := AddLayerAt(f, layerItems, start, l, nImages, nSounds, svc, ls);
      l := l + 1;
    }
  }

  method ReadGroups(f: DataFile, nImages: int, nSounds: int, svc: Services) returns (gs: seq<Group>)
    ensures gs == LoadGroups(f, |f.GetType(GroupType)|, nImages, nSounds, svc)
  {
    var layerItems := f.GetType(LayerType);
    var groupItems := f.GetType(GroupType);
    var exItems := f.GetType(GroupExType);
    gs := [];
    var g := 0;
    while g < |groupItems|
      invariant 0 <= g <= |groupItems|
      invariant gs == LoadGroups(f, g, nImages, nSounds, svc)
    {
      var d := groupItems[g].data;
      if GroupVersionOk(d) {
        var header := GroupHeader(d, ExData(exItems, g), svc);
        var layers := ReadGroupLayers(f, layerItems, Word(d, GROUP_START_LAYER), NonNeg(Word(d, GROUP_NUM_LAYERS)),
                                      nImages, nSounds, svc);
        gs := gs + [header.(layers := layers)];
      }
      g := g + 1;
    }
  }

  // ---------------------------------------------------------------------
  // Envelopes

  method ReadEnvelope(pa: PointAccess, it: Item) returns (env: Envelope)
    ensures env == LoadEnvelope(pa, it)
  {
    var d := it.data;
    var n := NonNeg(Word(d, ENV_NUM_POINTS));
    var start := Word(d, ENV_START_POINT);
    var points: seq<EnvPoint> := [];
    var p := 0;
    while p < n
      invariant 0 <= p <= n && |points| == p
      invariant forall q :: 0 <= q < p ==> points[q] == LoadPoint(pa, start + q)
    {
      points := points + [LoadPoint(pa, start + p)];
      p := p + 1;
    }
    var name := if Word(d, ENV_NAME) != -1 then Slice(d, ENV_NAME, ENV_NAME_WORDS) else Zeros(ENV_NAME_WORDS);
    var sync := if Word(d, 0) >= ENVELOPE_SYNC_VERSION then Word(d, ENV_SYNCHRONIZED) != 0 else false;
    env := Envelope(Word(d, ENV_CHANNELS), points, sync, name);
  }

  method ReadEnvelopes(f: DataFile) returns (envs: seq<Envelope>)
    ensures envs == LoadEnvelopes(MakePointAccess(f), f.GetType(EnvelopeType))
  {
    var pa := MakePointAccess(f);
    var its := f.GetType(EnvelopeType);
    envs := [];
    var e := 0;
    while e < |its|
      invariant 0 <= e <= |its|
      invariant envs == LoadEnvelopes(pa, its[..e])
    {
      assert its[..e + 1][..e] == its[..e];
      var env := ReadEnvelope(pa, its[e]);
      envs := envs + [env];
      e := e + 1;
    }
    assert its[..e] == its;
  }
}
