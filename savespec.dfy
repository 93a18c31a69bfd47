/**
 * What CEditorMap::Save writes, as functions of the map: the items and data
 * blocks appended to the writer, section by section, each section folding
 * over its list from the front so that a loop over the first `i` elements
 * has produced exactly the fold over `xs[..i]`.
 */
module SaveSpec {
  import opened Container
  import opened MapItems
  import opened MapModel

  /** The writer's state: the items and the data blocks appended so far. */
  datatype Out = Out(items: seq<Item>, blocks: seq<seq<byte>>)

  function Emit(o: Out, t: ItemType, id: int, data: seq<int>): Out
  {
    Out(o.items + [Item(t, id, data)], o.blocks)
  }

  function Store(o: Out, b: seq<byte>): Out
  {
    Out(o.items, o.blocks + [b])
  }

  // ---------------------------------------------------------------------
  // Version and info

  const VERSION_OUT := Out([Item(VersionType, 0, [MAP_VERSION_CURRENT])], [])

  /** An info string: stored with its NUL when non-empty, else the absent reference -1. */
  function StringRef(o: Out, s: seq<byte>): (Out, int)
  {
    if s == [] then (o, -1) else (Store(o, s + [0]), |o.blocks|)
  }

  function InfoWords(author: int, version: int, credits: int, license: int, settings: int): seq<int>
  {
    [INFO_VERSION, author, version, credits, license, settings]
  }

  function InfoOut(o: Out, info: MapInfo, settings: seq<seq<byte>>): Out
  {
    var a := StringRef(o, info.author);
    var v := StringRef(a.0, info.version);
    var c := StringRef(v.0, info.credits);
    var l := StringRef(c.0, info.license);
    var s := if settings == [] then (l.0, -1) else (Store(l.0, PackSettings(settings)), |l.0.blocks|);
    Emit(s.0, InfoType, 0, InfoWords(a.1, v.1, c.1, l.1, s.1))
  }

  // ---------------------------------------------------------------------
  // Images and sounds

  /** RGB pixels widened to RGBA: pixel j becomes (rgb[3j], rgb[3j+1], rgb[3j+2], 255). */
  function RgbToRgba(rgb: seq<byte>, n: nat): (r: seq<byte>)
    ensures |r| == 4 * n
  {
    seq(4 * n, k => if k % 4 == 3 then 255 else ByteAt(rgb, 3 * (k / 4) + k % 4))
  }

  /** The pixel block of an embedded image: always RGBA. */
  function SavedPixels(img: Image): seq<byte>
  {
    var n := Area(img.width, img.height);
    if img.format == FormatRGB then RgbToRgba(img.data, n) else Fit(img.data, 4 * n, 0)
  }

  function ImageOut(o: Out, i: int, img: Image): Out
  {
    var nameRef := |o.blocks|;
    var o1 := Store(o, img.name + [0]);
    var d := if img.external != 0 then (o1, -1) else (Store(o1, SavedPixels(img)), |o1.blocks|);
    Emit(d.0, ImageType, i, [IMAGE_VERSION, img.width, img.height, img.external, nameRef, d.1])
  }

  function ImagesOut(o: Out, imgs: seq<Image>): Out
  {
    if imgs == [] then o
    else ImageOut(ImagesOut(o, imgs[..|imgs| - 1]), |imgs| - 1, imgs[|imgs| - 1])
  }

  function SoundOut(o: Out, i: int, snd: Sound): Out
  {
    var nameRef := |o.blocks|;
    var o1 := Store(o, snd.name + [0]);
    var o2 := Store(o1, snd.data);
    Emit(o2, SoundType, i, [SOUND_ITEM_VERSION, 0, nameRef, |o1.blocks|, |snd.data|])
  }

  function SoundsOut(o: Out, snds: seq<Sound>): Out
  {
    if snds == [] then o
    else SoundOut(SoundsOut(o, snds[..|snds| - 1]), |snds| - 1, snds[|snds| - 1])
  }

  // ---------------------------------------------------------------------
  // Preparing tile layers

  /**
   * The flags CLayerTiles::PrepareForSave gives a tile of a layer, the map's
   * images given (they hold the flag tables CEditorImage::AnalyseTileFlags
   * computes).  Both helpers are collaborators outside this model.
   */
  type TileFlags = (seq<Image>, Layer, Tile) -> byte

  /** A tile layer as PrepareForSave leaves it: each tile's flags rewritten, nothing else changed; other layers as they are. */
  function PrepareLayer(images: seq<Image>, tileFlags: TileFlags, l: Layer): (r: Layer)
    ensures r.TilesLayer? <==> l.TilesLayer?
    ensures !l.TilesLayer? ==> r == l
    ensures l.TilesLayer? ==>
              r == l.(tiles := r.tiles) && |r.tiles| == |l.tiles|
              && forall i :: 0 <= i < |l.tiles| ==>
                   r.tiles[i].index == l.tiles[i].index && r.tiles[i].skip == l.tiles[i].skip
                   && r.tiles[i].reserved == l.tiles[i].reserved && r.tiles[i].flags == tileFlags(images, l, l.tiles[i])
  {
    if l.TilesLayer? then
      l.(tiles := seq(|l.tiles|, i requires 0 <= i < |l.tiles| => l.tiles[i].(flags := tileFlags(images, l, l.tiles[i]))))
    else l
  }

  function PrepareLayers(images: seq<Image>, tileFlags: TileFlags, ls: seq<Layer>): (r: seq<Layer>)
    ensures |r| == |ls|
  {
    seq(|ls|, k requires 0 <= k < |ls| => PrepareLayer(images, tileFlags, ls[k]))
  }

  /** The groups as Save leaves them: every tile layer prepared, nothing else changed. */
  function PrepareGroups(images: seq<Image>, tileFlags: TileFlags, gs: seq<Group>): (r: seq<Group>)
    ensures |r| == |gs|
  {
    seq(|gs|, g requires 0 <= g < |gs| => gs[g].(layers := PrepareLayers(images, tileFlags, gs[g].layers)))
  }

  // ---------------------------------------------------------------------
  // Groups and layers

  /** The writer and the running counters LayerCount, GroupCount and AutomapperCount. */
  datatype SaveState = SaveState(out: Out, layerCount: int, groupCount: int, automapperCount: int)

  function NameWords(name: seq<int>, n: nat): seq<int>
  {
    Fit(name, n, 0)
  }

  /** The block written for a physics layer's side array. */
  function SideBlock(l: Layer): seq<byte>
    requires l.TilesLayer?
  {
    var n := Area(l.width, l.height);
    if l.kind.tele then EncodeAll(Fit(l.side.tele, n, TeleTile(0, 0)), TeleBytes)
    else if l.kind.speedup then EncodeAll(Fit(l.side.speedup, n, SpeedupTile(0, 0, 0, 0)), SpeedupBytes)
    else if l.kind.front then EncodeAll(Fit(l.tiles, n, ZERO_TILE), TileBytes)
    else if l.kind.switch then EncodeAll(Fit(l.side.switch, n, SwitchTile(0, 0, 0, 0)), SwitchBytes)
    else EncodeAll(Fit(l.side.tune, n, TuneTile(0, 0)), TuneBytes)
  }

  /** The five side references: `ref` in the slot of the layer's saved kind, -1 elsewhere. */
  function SideRefs(flags: int, ref: int): seq<int>
  {
    [if flags == TILESLAYERFLAG_TELE then ref else -1,
     if flags == TILESLAYERFLAG_SPEEDUP then ref else -1,
     if flags == TILESLAYERFLAG_FRONT then ref else -1,
     if flags == TILESLAYERFLAG_SWITCH then ref else -1,
     if flags == TILESLAYERFLAG_TUNE then ref else -1]
  }

  function TilemapWords(l: Layer, flags: int, dataRef: int, refs: seq<int>): seq<int>
    requires l.TilesLayer?
  {
    [0, LAYERTYPE_TILES, l.flags, TILEMAP_VERSION, l.width, l.height, flags,
     l.color.r, l.color.g, l.color.b, l.color.a, l.colorEnv, l.colorEnvOffset, l.image, dataRef]
    + NameWords(l.name, NAME_WORDS) + refs
  }

  function AutomapperWords(l: Layer, group: int, layer: int): seq<int>
    requires l.TilesLayer?
  {
    [AUTOMAPPER_VERSION, group, layer, l.autoMapperConfig, l.seed,
     if l.autoAutoMap then AUTOMAPPER_FLAG_AUTOMATIC else 0]
  }

  function TilesOut(s: SaveState, numLayers: int, l: Layer): (SaveState, int)
    requires l.TilesLayer?
  {
    var n := Area(l.width, l.height);
    var flags := SaveFlags(l.kind);
    var o := s.out;
    var dataRef := |o.blocks|;
    var o2 :=
      if IsPhysics(l.kind) then Store(Store(o, seq(TILE_BYTES * n, _ => 0)), SideBlock(l))
      else Store(o, EncodeAll(Fit(l.tiles, n, ZERO_TILE), TileBytes));
    var refs := SideRefs(if IsPhysics(l.kind) then flags else 0, dataRef + 1);
    var o3 := Emit(o2, LayerType, s.layerCount, TilemapWords(l, flags, dataRef, refs));
    var o4 := if flags == 0 then Emit(o3, AutoMapperConfigType, s.automapperCount, AutomapperWords(l, s.groupCount, numLayers)) else o3;
    (SaveState(o4, s.layerCount + 1, s.groupCount, s.automapperCount + (if flags == 0 then 1 else 0)), numLayers + 1)
  }

  function QuadRecord(q: Quad): seq<int32>
  {
    Fit(q.words, QUAD_WORDS, 0)
  }

  function QuadsWords(qs: seq<Quad>): seq<int32>
  {
    Flatten(seq(|qs|, k requires 0 <= k < |qs| => QuadRecord(qs[k])))
  }

  function SourcesWords(ss: seq<SoundSource>): seq<int32>
  {
    Flatten(seq(|ss|, k requires 0 <= k < |ss| => SourceWords(ss[k])))
  }

  function QuadsOut(s: SaveState, numLayers: int, l: Layer): (SaveState, int)
    requires l.QuadsLayer?
  {
    if l.quads == [] then (s, numLayers)
    else
      var dataRef := |s.out.blocks|;
      var o := Store(s.out, EncodeWords(QuadsWords(l.quads)));
      var words := [0, LAYERTYPE_QUADS, l.flags, QUADS_VERSION, |l.quads|, dataRef, l.quadImage] + NameWords(l.name, NAME_WORDS);
      (s.(out := Emit(o, LayerType, s.layerCount, words), layerCount := s.layerCount + 1), numLayers + 1)
  }

  function SoundLayerOut(s: SaveState, numLayers: int, l: Layer): (SaveState, int)
    requires l.SoundsLayer?
  {
    if l.sources == [] then (s, numLayers)
    else
      var dataRef := |s.out.blocks|;
      var o := Store(s.out, EncodeWords(SourcesWords(l.sources)));
      var words := [0, LAYERTYPE_SOUNDS, l.flags, SOUNDS_VERSION, |l.sources|, dataRef, l.sound] + NameWords(l.name, NAME_WORDS);
      (s.(out := Emit(o, LayerType, s.layerCount, words), layerCount := s.layerCount + 1), numLayers + 1)
  }

  function LayerOut(s: SaveState, numLayers: int, l: Layer): (SaveState, int)
  {
    match l
    case TilesLayer(_, _, _, _, _, _, _, _, _, _, _, _, _, _) => TilesOut(s, numLayers, l)
    case QuadsLayer(_, _, _, _) => QuadsOut(s, numLayers, l)
    case SoundsLayer(_, _, _, _) => SoundLayerOut(s, numLayers, l)
  }

  /** The layers of one group, with the group's NumLayers counter. */
  function LayersOut(s: SaveState, numLayers: int, ls: seq<Layer>): (SaveState, int)
  {
    if ls == [] then (s, numLayers)
    else
      var r := LayersOut(s, numLayers, ls[..|ls| - 1]);
      LayerOut(r.0, r.1, ls[|ls| - 1])
  }

  function GroupWords(g: Group, startLayer: int, numLayers: int): seq<int>
  {
    [GROUP_VERSION, g.offsetX, g.offsetY, g.parallaxX, g.parallaxY, startLayer, numLayers,
     g.useClipping, g.clipX, g.clipY, g.clipW, g.clipH] + NameWords(g.name, NAME_WORDS)
  }

  function GroupOut(s: SaveState, g: Group): SaveState
  {
    var r := LayersOut(s, 0, g.layers);
    var o := Emit(r.0.out, GroupType, s.groupCount, GroupWords(g, s.layerCount, r.1));
    var o' := Emit(o, GroupExType, s.groupCount, [GROUPEX_VERSION, g.parallaxZoom]);
    r.0.(out := o', groupCount := s.groupCount + 1)
  }

  function GroupsOut(s: SaveState, gs: seq<Group>): SaveState
  {
    if gs == [] then s else GroupOut(GroupsOut(s, gs[..|gs| - 1]), gs[|gs| - 1])
  }

  // ---------------------------------------------------------------------
  // Envelopes and their points

  function PointTotal(envs: seq<Envelope>): nat
  {
    if envs == [] then 0 else PointTotal(envs[..|envs| - 1]) + |envs[|envs| - 1].points|
  }

  function EnvelopeWords(env: Envelope, startPoint: int): seq<int>
  {
    [ENVELOPE_VERSION, env.channels, startPoint, |env.points|] + NameWords(env.name, ENV_NAME_WORDS)
    + [if env.synchronized then 1 else 0]
  }

  function EnvelopesOut(o: Out, envs: seq<Envelope>): Out
  {
    if envs == [] then o
    else
      var pre := envs[..|envs| - 1];
      Emit(EnvelopesOut(o, pre), EnvelopeType, |envs| - 1, EnvelopeWords(envs[|envs| - 1], PointTotal(pre)))
  }

  predicate IsBezier(p: EnvPoint)
  {
    p.curveType == CURVETYPE_BEZIER
  }

  /** Some point of some envelope is a bezier point. */
  predicate BezierUsed(envs: seq<Envelope>)
  {
    exists e, k :: 0 <= e < |envs| && 0 <= k < |envs[e].points| && IsBezier(envs[e].points[k])
  }

  function StoredPoint(p: EnvPoint): seq<int>
  {
    [p.time, p.curveType] + Fit(p.values, 4, 0)
  }

  /**
   * The tangents stored for point k of an envelope: its out-tangent when the
   * point is a bezier point, its in-tangent when the previous point of the
   * same envelope is; zero otherwise.
   */
  function StoredTangents(ps: seq<EnvPoint>, k: int): Bezier
    requires 0 <= k < |ps|
  {
    var b := ps[k].bezier;
    var useIn := k > 0 && IsBezier(ps[k - 1]);
    var useOut := IsBezier(ps[k]);
    Bezier(if useIn then Fit(b.inDeltaX, 4, 0) else Zeros(4), if useIn then Fit(b.inDeltaY, 4, 0) else Zeros(4),
           if useOut then Fit(b.outDeltaX, 4, 0) else Zeros(4), if useOut then Fit(b.outDeltaY, 4, 0) else Zeros(4))
  }

  /** The point records of one envelope, back to back. */
  function EnvPointWords(ps: seq<EnvPoint>): seq<int>
  {
    if ps == [] then [] else EnvPointWords(ps[..|ps| - 1]) + StoredPoint(ps[|ps| - 1])
  }

  /** The tangent records of the first `n` points of one envelope. */
  function EnvBezierWords(ps: seq<EnvPoint>, n: nat): seq<int>
    requires n <= |ps|
  {
    if n == 0 then [] else EnvBezierWords(ps, n - 1) + BezierWords(StoredTangents(ps, n - 1))
  }

  function AllPointWords(envs: seq<Envelope>): seq<int>
  {
    if envs == [] then [] else AllPointWords(envs[..|envs| - 1]) + EnvPointWords(envs[|envs| - 1].points)
  }

  function AllBezierWords(envs: seq<Envelope>): seq<int>
  {
    if envs == [] then []
    else
      var ps := envs[|envs| - 1].points;
      AllBezierWords(envs[..|envs| - 1]) + EnvBezierWords(ps, |ps|)
  }

  function PointsOut(o: Out, envs: seq<Envelope>): Out
  {
    var o1 := Emit(o, EnvPointsType, 0, AllPointWords(envs));
    if BezierUsed(envs) then Emit(o1, EnvPointsBezierType, 0, AllBezierWords(envs)) else o1
  }

  // ---------------------------------------------------------------------
  // The whole file

  function SaveOut(m: MapData): Out
  {
    var o1 := InfoOut(VERSION_OUT, m.info, m.settings);
    var o2 := ImagesOut(o1, m.images);
    var o3 := SoundsOut(o2, m.sounds);
    var s4 := GroupsOut(SaveState(o3, 0, 0, 0), m.groups);
    var o5 := EnvelopesOut(s4.out, m.envelopes);
    PointsOut(o5, m.envelopes)
  }

  function SaveFile(m: MapData): DataFile
  {
    var o := SaveOut(m);
    DataFile(o.items, o.blocks)
  }
}
