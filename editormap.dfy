/**
 * CEditorMap: the map being edited, with Save, Load and PerformSanityChecks.
 * Save fills a writer section by section, keeping the running counters in
 * local variables; every loop keeps the writer equal to the save
 * specification of the elements handled so far.  Load rebuilds the fields
 * item by item, and the sanity pass rewrites tile layers' image references
 * in place.
 */
module EditorMap {
  import opened Container
  import opened MapItems
  import opened MapModel
  import opened SaveSpec
  import opened LoadSpec
  import opened MapLoader

  function OutOf(w: Writer): Out
    reads w
  {
    Out(w.items, w.blocks)
  }

  // ---------------------------------------------------------------------
  // Saving

  lemma {:induction false} SettingsSizeMonotone(cmds: seq<seq<byte>>, i: nat)
    requires i <= |cmds|
    ensures SettingsSize(cmds[..i]) <= SettingsSize(cmds)
    decreases |cmds|
  {
    if i < |cmds| {
      var pre := cmds[..|cmds| - 1];
      assert pre[..i] == cmds[..i];
      SettingsSizeMonotone(pre, i);
    } else {
      assert cmds[..i] == cmds;
    }
  }

  lemma {:induction false} SettingsStep(cmds: seq<seq<byte>>, i: nat)
    requires i < |cmds|
    ensures SettingsSize(cmds[..i + 1]) == SettingsSize(cmds[..i]) + |cmds[i]| + 1
    ensures PackSettings(cmds[..i + 1]) == PackSettings(cmds[..i]) + cmds[i] + [0]
  {
    assert cmds[..i + 1][..i] == cmds[..i];
  }

  /** mem_copy of a C string and its NUL into a buffer at offset `at`. */
  method CopyString(a: array<byte>, at: nat, c: seq<byte>)
    requires at + |c| + 1 <= a.Length
    modifies a
    ensures a[..at + |c| + 1] == old(a[..at]) + c + [0]
  {
    ghost var pre := a[..at];
    var j := 0;
    while j <= |c|
      invariant 0 <= j <= |c| + 1
      invariant a[..at] == pre
      invariant a[at..at + j] == (c + [0])[..j]
    {
      a[at + j] := if j < |c| then c[j] else 0;
      j := j + 1;
    }
    assert (c + [0])[..|c| + 1] == c + [0];
    assert a[..at + |c| + 1] == a[..at] + a[at..at + |c| + 1];
  }

  /** The settings buffer: its size is summed first, then each command and its NUL are copied in. */
  method PackSettingsBuffer(cmds: seq<seq<byte>>) returns (buf: seq<byte>)
    ensures buf == PackSettings(cmds)
    ensures |buf| == SettingsSize(cmds)
  {
    var size := 0;
    var i := 0;
    while i < |cmds|
      invariant 0 <= i <= |cmds|
      invariant size == SettingsSize(cmds[..i])
    {
      SettingsStep(cmds, i);
      size := size + |cmds[i]| + 1;
      i := i + 1;
    }
    assert cmds[..i] == cmds;
    var a := new byte[if size > 1 then size else 1];
    var next := 0;
    i := 0;
    while i < |cmds|
      invariant 0 <= i <= |cmds|
      invariant next == SettingsSize(cmds[..i]) && next <= size <= a.Length
      invariant a[..next] == PackSettings(cmds[..i])
    {
      SettingsStep(cmds, i);
      SettingsSizeMonotone(cmds, i + 1);
      CopyString(a, next, cmds[i]);
      next := next + |cmds[i]| + 1;
      i := i + 1;
    }
    assert cmds[..i] == cmds;
    PackSettingsSize(cmds);
    buf := a[..size];
  }

  method SaveInfo(w: Writer, info: MapInfo, settings: seq<seq<byte>>)
    modifies w
    ensures OutOf(w) == InfoOut(old(OutOf(w)), info, settings)
  {
    var author := -1;
    if info.author != [] {
      author := w.AddData(info.author + [0]);
    }
    var version := -1;
    if info.version != [] {
      version := w.AddData(info.version + [0]);
    }
    var credits := -1;
    if info.credits != [] {
      credits := w.AddData(info.credits + [0]);
    }
    var license := -1;
    if info.license != [] {
      license := w.AddData(info.license + [0]);
    }
    var settingsRef := -1;
    if settings != [] {
      var buf := PackSettingsBuffer(settings);
      settingsRef := w.AddData(buf);
    }
    w.AddItem(InfoType, 0, InfoWords(author, version, credits, license, settingsRef));
  }

  /** The RGB to RGBA conversion loop over the pixels of an embedded image. */
  method ConvertRgbToRgba(rgb: seq<byte>, n: nat) returns (rgba: seq<byte>)
    ensures rgba == RgbToRgba(rgb, n)
  {
    var a := new byte[4 * n];
    var j := 0;
    while j < n
      invariant 0 <= j <= n
      invariant forall k :: 0 <= k < 4 * j ==> a[k] == RgbToRgba(rgb, n)[k]
    {
      a[4 * j] := ByteAt(rgb, 3 * j);
      a[4 * j + 1] := ByteAt(rgb, 3 * j + 1);
      a[4 * j + 2] := ByteAt(rgb, 3 * j + 2);
      a[4 * j + 3] := 255;
      forall k | 4 * j <= k < 4 * j + 4
        ensures a[k] == RgbToRgba(rgb, n)[k]
      {
        assert k / 4 == j && k % 4 == k - 4 * j;
      }
      j := j + 1;
    }
    rgba := a[..];
  }

  method SaveImages(w: Writer, images: seq<Image>)
    modifies w
    ensures OutOf(w) == ImagesOut(old(OutOf(w)), images)
  {
    ghost var o0 := OutOf(w);
    var i := 0;
    while i < |images|
      invariant 0 <= i <= |images|
      invariant OutOf(w) == ImagesOut(o0, images[..i])
    {
      assert images[..i + 1][..i] == images[..i];
      var img := images[i];
      var nameRef := w.AddData(img.name + [0]);
      var dataRef := -1;
      if img.external == 0 {
        var n := Area(img.width, img.height);
        if img.format == FormatRGB {
          var rgba := ConvertRgbToRgba(img.data, n);
          dataRef := w.AddData(rgba);
        } else {
          dataRef := w.AddData(Fit(img.data, 4 * n, 0));
        }
      }
      w.AddItem(ImageType, i, [IMAGE_VERSION, img.width, img.height, img.external, nameRef, dataRef]);
      i := i + 1;
    }
    assert images[..i] == images;
  }

  method SaveSounds(w: Writer, sounds: seq<Sound>)
    modifies w
    ensures OutOf(w) == SoundsOut(old(OutOf(w)), sounds)
  {
    ghost var o0 := OutOf(w);
    var i := 0;
    while i < |sounds|
      invariant 0 <= i <= |sounds|
      invariant OutOf(w) == SoundsOut(o0, sounds[..i])
    {
      assert sounds[..i + 1][..i] == sounds[..i];
      var snd := sounds[i];
      var nameRef := w.AddData(snd.name + [0]);
      var dataRef := w.AddData(snd.data);
      w.AddItem(SoundType, i, [SOUND_ITEM_VERSION, 0, nameRef, dataRef, |snd.data|]);
      i := i + 1;
    }
    assert sounds[..i] == sounds;
  }

  /** One layer of a group: the items and blocks it emits and the counters it advances. */
  method SaveLayer(w: Writer, images: seq<Image>, tileFlags: TileFlags,
                   layerCount: int, groupCount: int, automapperCount: int, numLayers: int, layer: Layer)
    returns (layerCount': int, automapperCount': int, numLayers': int, l: Layer)
    modifies w
    ensures l == PrepareLayer(images, tileFlags, layer)
    ensures (SaveState(OutOf(w), layerCount', groupCount, automapperCount'), numLayers')
         == LayerOut(SaveState(old(OutOf(w)), layerCount, groupCount, automapperCount), numLayers, l)
  {
    layerCount', automapperCount', numLayers' := layerCount, automapperCount, numLayers;
    l := PrepareLayer(images, tileFlags, layer);
    match l
    case TilesLayer(_, _, _, _, _, _, _, _, _, _, _, _, _, _) =>
      var n := Area(l.width, l.height);
      var flags := SaveFlags(l.kind);
      var dataRef;
      var refs := SideRefs(0, 0);
      if flags != 0 && !l.kind.game {
        dataRef := w.AddData(seq(TILE_BYTES * n, _ => 0));
        var sideRef := w.AddData(SideBlock(l));
        refs := SideRefs(flags, sideRef);
      } else {
        dataRef := w.AddData(EncodeAll(Fit(l.tiles, n, ZERO_TILE), TileBytes));
      }
      w.AddItem(LayerType, layerCount, TilemapWords(l, flags, dataRef, refs));
      if flags == 0 {
        w.AddItem(AutoMapperConfigType, automapperCount, AutomapperWords(l, groupCount, numLayers));
        automapperCount' := automapperCount + 1;
      }
      numLayers' := numLayers + 1;
      layerCount' := layerCount + 1;
    case QuadsLayer(_, _, _, _) =>
      if l.quads != [] {
        var dataRef := w.AddDataSwapped(QuadsWords(l.quads));
        w.AddItem(LayerType, layerCount,
          [0, LAYERTYPE_QUADS, l.flags, QUADS_VERSION, |l.quads|, dataRef, l.quadImage] + NameWords(l.name, NAME_WORDS));
        numLayers' := numLayers + 1;
        layerCount' := layerCount + 1;
      }
    case SoundsLayer(_, _, _, _) =>
      if l.sources != [] {
        var dataRef := w.AddDataSwapped(SourcesWords(l.sources));
        w.AddItem(LayerType, layerCount,
          [0, LAYERTYPE_SOUNDS, l.flags, SOUNDS_VERSION, |l.sources|, dataRef, l.sound] + NameWords(l.name, NAME_WORDS));
        numLayers' := numLayers + 1;
        layerCount' := layerCount + 1;
      }
  }

  /** One group: its layers, each prepared and written, then its group item and its parallax-zoom extension item. */
  method SaveGroup(w: Writer, images: seq<Image>, tileFlags: TileFlags,
                   layerCount: int, groupCount: int, automapperCount: int, group: Group)
    returns (layerCount': int, automapperCount': int, g: Group)
    modifies w
    ensures g == group.(layers := PrepareLayers(images, tileFlags, group.layers))
    ensures SaveState(OutOf(w), layerCount', groupCount + 1, automapperCount')
         == GroupOut(SaveState(old(OutOf(w)), layerCount, groupCount, automapperCount), g)
  {
    ghost var sg := SaveState(OutOf(w), layerCount, groupCount, automapperCount);
    layerCount', automapperCount' := layerCount, automapperCount;
    var layers: seq<Layer> := [];
    var numLayers := 0;
    var li := 0;
    while li < |group.layers|
      invariant 0 <= li <= |group.layers|
      invariant layers == PrepareLayers(images, tileFlags, group.layers[..li])
      invariant (SaveState(OutOf(w), layerCount', groupCount, automapperCount'), numLayers) == LayersOut(sg, 0, layers)
    {
      var l;
      layerCount', automapperCount', numLayers, l := SaveLayer(w, images, tileFlags, layerCount', groupCount, automapperCount', numLayers, group.layers[li]);
      assert (layers + [l])[..li] == layers;
      layers := layers + [l];
      li := li + 1;
    }
    assert group.layers[..li] == group.layers;
    g := group.(layers := layers);
    w.AddItem(GroupType, groupCount, GroupWords(g, layerCount, numLayers));
    w.AddItem(GroupExType, groupCount, [GROUPEX_VERSION, g.parallaxZoom]);
  }

  /** The group section; the groups come back with their tile layers prepared. */
  method SaveGroups(w: Writer, images: seq<Image>, tileFlags: TileFlags, groups: seq<Group>) returns (prepared: seq<Group>)
    modifies w
    ensures prepared == PrepareGroups(images, tileFlags, groups)
    ensures OutOf(w) == GroupsOut(SaveState(old(OutOf(w)), 0, 0, 0), prepared).out
  {
    ghost var s0 := SaveState(OutOf(w), 0, 0, 0);
    var layerCount, groupCount, automapperCount := 0, 0, 0;
    prepared := [];
    var gi := 0;
    while gi < |groups|
      invariant 0 <= gi <= |groups|
      invariant prepared == PrepareGroups(images, tileFlags, groups[..gi])
      invariant SaveState(OutOf(w), layerCount, groupCount, automapperCount) == GroupsOut(s0, prepared)
    {
      var g;
      layerCount, automapperCount, g := SaveGroup(w, images, tileFlags, layerCount, groupCount, automapperCount, groups[gi]);
      assert (prepared + [g])[..gi] == prepared;
      prepared := prepared + [g];
      groupCount := groupCount + 1;
      gi := gi + 1;
    }
    assert groups[..gi] == groups;
  }

  method SaveEnvelopes(w: Writer, envs: seq<Envelope>)
    modifies w
    ensures OutOf(w) == EnvelopesOut(old(OutOf(w)), envs)
  {
    ghost var o0 := OutOf(w);
    var pointCount := 0;
    var e := 0;
    while e < |envs|
      invariant 0 <= e <= |envs|
      invariant OutOf(w) == EnvelopesOut(o0, envs[..e])
      invariant pointCount == PointTotal(envs[..e])
    {
      assert envs[..e + 1][..e] == envs[..e];
      w.AddItem(EnvelopeType, e, EnvelopeWords(envs[e], pointCount));
      pointCount := pointCount + |envs[e].points|;
      e := e + 1;
    }
    assert envs[..e] == envs;
  }

  /** The scan for a bezier point, which stops at the first one. */
  method FindBezier(envs: seq<Envelope>) returns (used: bool)
    ensures used == BezierUsed(envs)
  {
    used := false;
    var e := 0;
    while e < |envs|
      invariant 0 <= e <= |envs|
      invariant !used
      invariant forall e', k :: 0 <= e' < e && 0 <= k < |envs[e'].points| ==> !IsBezier(envs[e'].points[k])
    {
      var ps := envs[e].points;
      var k := 0;
      while k < |ps|
        invariant 0 <= k <= |ps|
        invariant !used
        invariant forall k' :: 0 <= k' < k ==> !IsBezier(ps[k'])
      {
        if IsBezier(ps[k]) {
          used := true;
          break;
        }
        k := k + 1;
      }
      if used {
        assert IsBezier(envs[e].points[k]);
        return;
      }
      e := e + 1;
    }
  }

  lemma {:induction false} AllPointWordsStep(envs: seq<Envelope>, e: nat)
    requires e < |envs|
    ensures AllPointWords(envs[..e + 1]) == AllPointWords(envs[..e]) + EnvPointWords(envs[e].points)
    ensures AllBezierWords(envs[..e + 1]) == AllBezierWords(envs[..e]) + EnvBezierWords(envs[e].points, |envs[e].points|)
  {
    assert envs[..e + 1][..e] == envs[..e];
  }

  /** The point records and tangent records of one envelope, with the previous point of the envelope at hand. */
  method EnvelopePointRecords(ps: seq<EnvPoint>, bezierUsed: bool) returns (points: seq<int>, beziers: seq<int>)
    ensures points == EnvPointWords(ps)
    ensures bezierUsed ==> beziers == EnvBezierWords(ps, |ps|)
  {
    points, beziers := [], [];
    var prev: Option<EnvPoint> := None;
    var k := 0;
    while k < |ps|
      invariant 0 <= k <= |ps|
      invariant prev == (if k == 0 then None else Some(ps[k - 1]))
      invariant points == EnvPointWords(ps[..k])
      invariant bezierUsed ==> beziers == EnvBezierWords(ps, k)
    {
      var p := ps[k];
      assert ps[..k + 1][..k] == ps[..k];
      points := points + StoredPoint(p);
      if bezierUsed {
        var outX, outY := Zeros(4), Zeros(4);
        if IsBezier(p) {
          outX, outY := Fit(p.bezier.outDeltaX, 4, 0), Fit(p.bezier.outDeltaY, 4, 0);
        }
        var inX, inY := Zeros(4), Zeros(4);
        if prev.Some? && IsBezier(prev.value) {
          inX, inY := Fit(p.bezier.inDeltaX, 4, 0), Fit(p.bezier.inDeltaY, 4, 0);
        }
        beziers := beziers + BezierWords(Bezier(inX, inY, outX, outY));
      }
      prev := Some(p);
      k := k + 1;
    }
    assert ps[..k] == ps;
  }

  /** The point buffer and, if some point is a bezier point, the tangent buffer, each written as one item. */
  method SavePoints(w: Writer, envs: seq<Envelope>)
    modifies w
    ensures OutOf(w) == PointsOut(old(OutOf(w)), envs)
  {
    var bezierUsed := FindBezier(envs);
    var points: seq<int> := [];
    var beziers: seq<int> := [];
    var e := 0;
    while e < |envs|
      invariant 0 <= e <= |envs|
      invariant points == AllPointWords(envs[..e])
      invariant bezierUsed ==> beziers == AllBezierWords(envs[..e])
      invariant OutOf(w) == old(OutOf(w))
    {
      var ps, bs := EnvelopePointRecords(envs[e].points, bezierUsed);
      AllPointWordsStep(envs, e);
      points := points + ps;
      beziers := beziers + bs;
      e := e + 1;
    }
    assert envs[..e] == envs;
    w.AddItem(EnvPointsType, 0, points);
    if bezierUsed {
      w.AddItem(EnvPointsBezierType, 0, beziers);
    }
  }

  // ---------------------------------------------------------------------
  // The sanity pass

  /** The layers of group `g` with image `i` unset wherever a tile layer uses it, and one error per such layer. */
  method DetachInLayers(ls: seq<Layer>, i: int, g: int) returns (r: seq<Layer>, errors: seq<SanityError>)
    ensures |r| == |ls|
    ensures forall l :: 0 <= l < |ls| ==> r[l] == DetachImage(ls[l], i)
    ensures errors == LayerErrors(ls, i, g, |ls|)
  {
    r, errors := ls, [];
    var l := 0;
    while l < |ls|
      invariant 0 <= l <= |ls| && |r| == |ls|
      invariant forall k :: 0 <= k < l ==> r[k] == DetachImage(ls[k], i)
      invariant forall k :: l <= k < |ls| ==> r[k] == ls[k]
      invariant errors == LayerErrors(ls, i, g, l)
    {
      if r[l].TilesLayer? && r[l].image >= 0 && r[l].image == i {
        r := r[l := r[l].(image := -1)];
        errors := errors + [SanityError(i, g, l)];
      }
      l := l + 1;
    }
  }

  // ---------------------------------------------------------------------
  // The map

  class EditorMap {
    var info: MapInfo
    var settings: seq<seq<byte>>
    var images: seq<Image>
    var sounds: seq<Sound>
    var groups: seq<Group>
    var envelopes: seq<Envelope>

    function Snapshot(): MapData
      reads this
    {
      MapData(info, settings, images, sounds, groups, envelopes)
    }

    constructor ()
      ensures Snapshot() == EMPTY_MAP
    {
      info, settings, images, sounds, groups, envelopes := EMPTY_INFO, [], [], [], [], [];
    }

    method Clean()
      modifies this
      ensures Snapshot() == EMPTY_MAP
    {
      info, settings, images, sounds, groups, envelopes := EMPTY_INFO, [], [], [], [], [];
    }

    /**
     * Writes the map; `canOpen` is whether the writer could create its file.
     * Every tile layer is prepared as it is written, and the file is what
     * the writer holds once every section of the prepared map is written.
     */
    method Save(canOpen: bool, tileFlags: TileFlags) returns (ok: bool, file: DataFile)
      modifies this
      ensures ok == canOpen
      ensures !ok ==> Snapshot() == old(Snapshot())
      ensures ok ==> Snapshot() == old(Snapshot()).(groups := PrepareGroups(images, tileFlags, old(groups)))
      ensures ok ==> file == SaveFile(Snapshot())
    {
      if !canOpen {
        return false, DataFile([], []);
      }
      var w := new Writer.Open();
      w.AddItem(VersionType, 0, [MAP_VERSION_CURRENT]);
      assert OutOf(w) == VERSION_OUT;
      SaveInfo(w, info, settings);
      SaveImages(w, images);
      SaveSounds(w, sounds);
      groups := SaveGroups(w, images, tileFlags, groups);
      SaveEnvelopes(w, envelopes);
      SavePoints(w, envelopes);
      ok, file := true, DataFile(w.items, w.blocks);
    }
  

    /** Attaches each automapper item to the plain tile layer it names, if that layer exists. */
    method ApplyAutomapperItems(its: seq<Item>)
      modifies this
      ensures Snapshot() == old(Snapshot()).(groups := ApplyAutomappers(old(groups), its))
    {
      var i := 0;
      while i < |its|
        invariant 0 <= i <= |its|
        invariant Snapshot() == old(Snapshot()).(groups := ApplyAutomappers(old(groups), its[..i]))
      {
        assert its[..i + 1][..i] == its[..i];
        var d := its[i].data;
        var g, l := Word(d, AM_GROUP), Word(d, AM_LAYER);
        if Word(d, 0) == AUTOMAPPER_VERSION && 0 <= g < |groups| && 0 <= l < |groups[g].layers| {
          var layer := groups[g].layers[l];
          if layer.TilesLayer? && layer.kind == PLAIN_KIND {
            layer := layer.(autoMapperConfig := Word(d, AM_CONFIG), seed := Word(d, AM_SEED),
                            autoAutoMap := HasFlag(Word(d, AM_FLAGS), AUTOMAPPER_FLAG_AUTOMATIC));
            groups := groups[g := groups[g].(layers := groups[g].layers[l := layer])];
          }
        }
        i := i + 1;
      }
      assert its[..i] == its;
    }

    /** Unsets image `i` in every tile layer of every group that uses it, one error per such layer. */
    method DetachImageEverywhere(i: int) returns (errors: seq<SanityError>)
      modifies this
      ensures groups == DetachAll(old(groups), i)
      ensures errors == GroupErrors(old(groups), i, |old(groups)|)
      ensures Snapshot() == old(Snapshot()).(groups := groups)
    {
      errors := [];
      var g := 0;
      while g < |groups|
        invariant 0 <= g <= |groups| == |old(groups)|
        invariant forall k :: 0 <= k < g ==> groups[k] == DetachAll(old(groups), i)[k]
        invariant forall k :: g <= k < |groups| ==> groups[k] == old(groups)[k]
        invariant errors == GroupErrors(old(groups), i, g)
        invariant Snapshot() == old(Snapshot()).(groups := groups)
      {
        var layers, errs := DetachInLayers(groups[g].layers, i, g);
        groups := groups[g := groups[g].(layers := layers)];
        errors := errors + errs;
        g := g + 1;
      }
    }

    /**
     * Checks the images in order; each one whose sides are not both
     * multiples of 16 is unset in the tile layers that use it.
     */
    method PerformSanityChecks() returns (errors: seq<SanityError>)
      modifies this
      ensures (groups, errors) == Sanity(images, old(groups), |images|)
      ensures Snapshot() == old(Snapshot()).(groups := groups)
    {
      errors := [];
      var i := 0;
      while i < |images|
        invariant 0 <= i <= |images|
        invariant (groups, errors) == Sanity(images, old(groups), i)
        invariant Snapshot() == old(Snapshot()).(groups := groups)
      {
        if images[i].width % 16 != 0 || images[i].height % 16 != 0 {
          var errs := DetachImageEverywhere(i);
          errors := errors + errs;
        }
        i := i + 1;
      }
    }

    /** The sections of a file of the current version, read in order into the fields. */
    method ReadSections(f: DataFile, svc: Services)
      modifies this
      ensures Snapshot() == LoadedMap(f, svc)
    {
      var st := ReadInfo(f);
      info, settings := st.info, st.settings;
      images := ReadImages(f, svc);
      sounds := ReadSounds(f, svc);
      groups := ReadGroups(f, |images|, |sounds|, svc);
      envelopes := ReadEnvelopes(f);
      ApplyAutomapperItems(f.GetType(AutoMapperConfigType));
    }

    /**
     * Reads a map file; `file` is None when the file could not be opened.
     * An opened file always clears the map first, so a file without the
     * current version item leaves it empty.
     */
    method Load(file: Option<DataFile>, svc: Services) returns (ok: bool, errors: seq<SanityError>)
      modifies this
      ensures file.None? ==> !ok && errors == [] && Snapshot() == old(Snapshot())
      ensures file.Some? && !VersionOk(file.value) ==> !ok && errors == [] && Snapshot() == EMPTY_MAP
      ensures file.Some? && VersionOk(file.value) ==> ok && (Snapshot(), errors) == LoadResult(file.value, svc)
    {
      if file.None? {
        return false, [];
      }
      var f := file.value;
      Clean();
      var v := FindItem(f.items, VersionType, 0);
      if v.None? || Word(v.value.data, 0) != MAP_VERSION_CURRENT {
        return false, [];
      }
      ReadSections(f, svc);
      errors := PerformSanityChecks();
      ok := true;
    }
  }
}
