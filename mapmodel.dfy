/**
 * The editor's in-memory map (CEditorMap and the objects it owns) as values:
 * map info and settings, images, sounds, groups of layers and envelopes, and
 * the collaborators that the loader calls but whose code is not part of this
 * model.  Text is kept as bytes (C strings without their terminator); the
 * names of groups, layers and envelopes are kept in the packed integer form
 * the items store.
 */
module MapModel {
  import opened Container
  import opened MapItems

  // ---------------------------------------------------------------------
  // C strings

  predicate IsCString(s: seq<byte>)
  {
    forall k :: 0 <= k < |s| ==> s[k] != 0
  }

  /** The C string at the start of a block: everything before the first NUL (the whole block if it has none). */
  function CStr(b: seq<byte>): (s: seq<byte>)
    ensures IsCString(s) && |s| <= |b| && s == b[..|s|]
    ensures |s| < |b| ==> b[|s|] == 0
  {
    if b == [] || b[0] == 0 then [] else [b[0]] + CStr(b[1..])
  }

  lemma {:induction false} CStrOfTerminated(s: seq<byte>, rest: seq<byte>)
    requires IsCString(s)
    ensures CStr(s + [0] + rest) == s
    decreases |s|
  {
    if s == [] {
      assert (s + [0] + rest)[0] == 0;
    } else {
      assert (s + [0] + rest)[1..] == s[1..] + [0] + rest;
      CStrOfTerminated(s[1..], rest);
    }
  }

  /** The settings block: every command followed by its NUL, back to back. */
  function PackSettings(cmds: seq<seq<byte>>): seq<byte>
  {
    if cmds == [] then [] else PackSettings(cmds[..|cmds| - 1]) + cmds[|cmds| - 1] + [0]
  }

  /** The size the saver computes for the settings block. */
  function SettingsSize(cmds: seq<seq<byte>>): nat
  {
    if cmds == [] then 0 else SettingsSize(cmds[..|cmds| - 1]) + |cmds[|cmds| - 1]| + 1
  }

  /** Splitting a settings block at its NULs, as the loader's scan does. */
  function SplitSettings(b: seq<byte>): seq<seq<byte>>
    decreases |b|
  {
    if b == [] then []
    else
      var s := CStr(b);
      [s] + SplitSettings(if |s| < |b| then b[|s| + 1..] else [])
  }

  lemma {:induction false} PackSettingsSize(cmds: seq<seq<byte>>)
    ensures |PackSettings(cmds)| == SettingsSize(cmds)
    decreases |cmds|
  {
    if cmds != [] {
      PackSettingsSize(cmds[..|cmds| - 1]);
    }
  }

  lemma {:induction false} PackSettingsCons(cmds: seq<seq<byte>>)
    requires cmds != []
    ensures PackSettings(cmds) == cmds[0] + [0] + PackSettings(cmds[1..])
    decreases |cmds|
  {
    if |cmds| == 1 {
      assert cmds[..0] == [];
      assert cmds[1..] == [];
    } else {
      var pre := cmds[..|cmds| - 1];
      PackSettingsCons(pre);
      assert pre[1..] == cmds[1..][..|cmds[1..]| - 1];
      assert pre[0] == cmds[0];
    }
  }

  /** Splitting the saved settings block gives back the commands, in order. */
  lemma {:induction false} SettingsRoundTrip(cmds: seq<seq<byte>>)
    requires forall k :: 0 <= k < |cmds| ==> IsCString(cmds[k])
    ensures SplitSettings(PackSettings(cmds)) == cmds
    decreases |cmds|
  {
    if cmds != [] {
      var b := PackSettings(cmds);
      PackSettingsCons(cmds);
      CStrOfTerminated(cmds[0], PackSettings(cmds[1..]));
      assert b[|cmds[0]| + 1..] == PackSettings(cmds[1..]);
      SettingsRoundTrip(cmds[1..]);
    }
  }

  // ---------------------------------------------------------------------
  // Sizes

  /** Cells of a width × height grid; a negative side gives an empty grid. */
  function Area(width: int, height: int): (n: nat)
    ensures width > 0 && height > 0 ==> n == width * height
  {
    if width <= 0 || height <= 0 then 0 else width * height
  }

  /** The first `n` elements, padded with `pad` when the sequence is shorter (a copy of `n` elements out of a buffer). */
  function Fit<T>(xs: seq<T>, n: nat, pad: T): (r: seq<T>)
    ensures |r| == n
    ensures forall k :: 0 <= k < n ==> r[k] == (if k < |xs| then xs[k] else pad)
  {
    seq(n, k requires 0 <= k < n => if k < |xs| then xs[k] else pad)
  }

  // ---------------------------------------------------------------------
  // The map

  datatype ImageFormat = FormatUndefined | FormatRGB | FormatRGBA | FormatR | FormatRA

  function PixelSize(f: ImageFormat): nat
  {
    match f
    case FormatRGB => 3
    case FormatRGBA => 4
    case FormatR => 1
    case FormatRA => 2
    case FormatUndefined => 0
  }

  /** CEditorImage: size, pixel format, whether it comes from the game's image directory, name and pixels. */
  datatype Image = Image(width: int, height: int, format: ImageFormat, external: int, name: seq<byte>, data: seq<byte>)

  const EMPTY_IMAGE := Image(0, 0, FormatUndefined, 0, [], [])

  /** CEditorSound: name and encoded sample data. */
  datatype Sound = Sound(name: seq<byte>, data: seq<byte>)

  datatype MapInfo = MapInfo(author: seq<byte>, version: seq<byte>, credits: seq<byte>, license: seq<byte>)

  const EMPTY_INFO := MapInfo([], [], [], [])

  datatype Color4 = Color4(r: int, g: int, b: int, a: int)

  /** The kind flags of a tile layer (m_Game, m_Tele, m_Speedup, m_Front, m_Switch, m_Tune). */
  datatype TileKind = TileKind(game: bool, tele: bool, speedup: bool, front: bool, switch: bool, tune: bool)

  const PLAIN_KIND := TileKind(false, false, false, false, false, false)

  /** The side arrays of the physics layers (CLayerTele::m_pTeleTile and its siblings); empty on other layers. */
  datatype SideTiles = SideTiles(tele: seq<TeleTile>, speedup: seq<SpeedupTile>, switch: seq<SwitchTile>, tune: seq<TuneTile>)

  const NO_SIDE_TILES := SideTiles([], [], [], [])

  datatype Layer =
    | TilesLayer(flags: int, width: int, height: int, tiles: seq<Tile>, kind: TileKind, side: SideTiles,
                 image: int, color: Color4, colorEnv: int, colorEnvOffset: int, name: seq<int>,
                 autoMapperConfig: int, seed: int, autoAutoMap: bool)
    | QuadsLayer(flags: int, quadImage: int, name: seq<int>, quads: seq<Quad>)
    | SoundsLayer(flags: int, sound: int, name: seq<int>, sources: seq<SoundSource>)

  datatype Group = Group(
    offsetX: int, offsetY: int, parallaxX: int, parallaxY: int,
    useClipping: int, clipX: int, clipY: int, clipW: int, clipH: int,
    parallaxZoom: int, name: seq<int>, layers: seq<Layer>)

  /** A freshly created group (NewGroup). */
  const NEW_GROUP := Group(0, 0, 100, 100, 0, 0, 0, 0, 0, 100, Zeros(NAME_WORDS), [])

  datatype Envelope = Envelope(channels: int, points: seq<EnvPoint>, synchronized: bool, name: seq<int>)

  /** A snapshot of everything CEditorMap saves and loads. */
  datatype MapData = MapData(
    info: MapInfo, settings: seq<seq<byte>>, images: seq<Image>, sounds: seq<Sound>,
    groups: seq<Group>, envelopes: seq<Envelope>)

  const EMPTY_MAP := MapData(EMPTY_INFO, [], [], [], [], [])

  /** The tilemap flags word the saver writes: the first of tele, speedup, front, switch, tune, then game, else 0. */
  function SaveFlags(k: TileKind): int
  {
    if k.tele then TILESLAYERFLAG_TELE
    else if k.speedup then TILESLAYERFLAG_SPEEDUP
    else if k.front then TILESLAYERFLAG_FRONT
    else if k.switch then TILESLAYERFLAG_SWITCH
    else if k.tune then TILESLAYERFLAG_TUNE
    else if k.game then TILESLAYERFLAG_GAME
    else 0
  }

  /**
   * The layer the loader constructs for a tilemap flags word: a game layer
   * if the game bit is set, else the first of tele, speedup, front, switch,
   * tune whose bit is set, else a plain tile layer.
   */
  function KindOfFlags(flags: int): TileKind
  {
    if HasFlag(flags, TILESLAYERFLAG_GAME) then PLAIN_KIND.(game := true)
    else if HasFlag(flags, TILESLAYERFLAG_TELE) then PLAIN_KIND.(tele := true)
    else if HasFlag(flags, TILESLAYERFLAG_SPEEDUP) then PLAIN_KIND.(speedup := true)
    else if HasFlag(flags, TILESLAYERFLAG_FRONT) then PLAIN_KIND.(front := true)
    else if HasFlag(flags, TILESLAYERFLAG_SWITCH) then PLAIN_KIND.(switch := true)
    else if HasFlag(flags, TILESLAYERFLAG_TUNE) then PLAIN_KIND.(tune := true)
    else PLAIN_KIND
  }

  /** At most one kind flag is set, as on every layer the editor constructs. */
  predicate SingleKind(k: TileKind)
  {
    (if k.game then 1 else 0) + (if k.tele then 1 else 0) + (if k.speedup then 1 else 0)
    + (if k.front then 1 else 0) + (if k.switch then 1 else 0) + (if k.tune then 1 else 0) <= 1
  }

  /** A physics layer other than the game layer: one whose saved data is the all-zero placeholder. */
  predicate IsPhysics(k: TileKind)
  {
    SaveFlags(k) != 0 && !k.game
  }

  // ---------------------------------------------------------------------
  // Collaborators

  /**
   * What the loader calls outside this model: PNG decoding of external
   * images (by path), reading external sound files (by name), the image
   * format table, the parallax zoom of a group item (and its extension item,
   * if any), the skip-encoded tile expansion of CMap::ExtractTiles, and the
   * game's entity constants and tile predicates.
   */
  datatype Services = Services(
    loadPng: seq<byte> -> Option<Image>,
    readFile: seq<byte> -> Option<seq<byte>>,
    formatFromInt: int -> ImageFormat,
    parallaxZoom: (seq<int>, Option<seq<int>>) -> int,
    expandSkipTiles: (seq<byte>, nat) -> seq<Tile>,
    rules: EntityRules)
}
