/**
 * The whole round trip: the file CEditorMap::Save writes for a map passes
 * CEditorMap::Load's version check and loads back as the map in its saved
 * form.  The saved form keeps everything the file carries: images widened
 * to RGBA (an external one as the image directory gives it back), empty
 * quad and sound layers dropped, the tiles of tele, speedup, switch and
 * tune layers rebuilt from their side arrays, the automapper settings of
 * plain tile layers only, and envelope names and points as they are stored.
 */
module SavedMapRoundTrip {
  import opened Container
  import opened MapItems
  import opened MapModel
  import opened SaveSpec
  import opened LoadSpec
  import opened MapProperties
  import opened FileProperties
  import opened LayerRuns
  import opened MapRoundTrip

  /**
   * A map the saver writes in a form the loader reads back unchanged: the
   * info strings, settings and image and sound names hold no zero byte,
   * group names are full-length, and every layer is one the saver writes
   * consistently (see SaveableLayer).
   */
  predicate Saveable(m: MapData)
  {
    && StringsSaveable(m)
    && (forall k :: 0 <= k < |m.groups| ==> |m.groups[k].name| == NAME_WORDS)
    && LayersSaveable(m.groups, |m.images|, |m.sounds|)
  }

  /** The strings written before the groups hold no zero byte. */
  predicate StringsSaveable(m: MapData)
  {
    && IsCString(m.info.author) && IsCString(m.info.version) && IsCString(m.info.credits) && IsCString(m.info.license)
    && (forall k :: 0 <= k < |m.settings| ==> IsCString(m.settings[k]))
    && (forall i :: 0 <= i < |m.images| ==> IsCString(m.images[i].name))
    && (forall i :: 0 <= i < |m.sounds| ==> IsCString(m.sounds[i].name))
  }

  /** Envelope e as it loads back: its name and points in their stored form. */
  function SavedEnvelope(envs: seq<Envelope>, e: nat): Envelope
    requires e < |envs|
  {
    var env := envs[e];
    env.(name := SavedName(env.name),
         points := seq(|env.points|, p requires 0 <= p < |env.points| => SavedPoint(env.points, p, BezierUsed(envs))))
  }

  function SavedEnvelopes(envs: seq<Envelope>): (r: seq<Envelope>)
    ensures |r| == |envs|
  {
    seq(|envs|, e requires 0 <= e < |envs| => SavedEnvelope(envs, e))
  }

  /** The map as it loads back from the file it was saved to. */
  function SavedMap(m: MapData, svc: Services): MapData
  {
    MapData(m.info, m.settings, SavedImages(m.images, svc), m.sounds, SavedGroups(m.groups, svc), SavedEnvelopes(m.envelopes))
  }

  // ---------------------------------------------------------------------
  // The sections of a saved file

  /** The item types written before the groups: the version, the info, the images and the sounds. */
  const PRE_SECTION: set<ItemType> := {VersionType, InfoType, ImageType, SoundType}

  /** What is written before the groups. */
  function PreOut(m: MapData): Out
  {
    SoundsOut(ImagesOut(InfoOut(VERSION_OUT, m.info, m.settings), m.images), m.sounds)
  }

  function GroupsStart(m: MapData): SaveState
  {
    SaveState(PreOut(m), 0, 0, 0)
  }

  function GroupsEnd(m: MapData): SaveState
  {
    GroupsOut(GroupsStart(m), m.groups)
  }

  lemma {:induction false} OfTypeOutside(items: seq<Item>, ts: set<ItemType>, t: ItemType)
    requires AllOf(items, ts) && t !in ts
    ensures OfType(items, t) == []
  {
    assert forall k :: 0 <= k < |items| ==> items[k].typ != t;
  }

  lemma {:induction false} OfTypeInside(items: seq<Item>, t: ItemType)
    requires AllOf(items, {t})
    ensures OfType(items, t) == items
  {
    OfTypeAll(items, t);
  }

  /** The file whose last section, written after `o`, is the envelope section. */
  function FileOf(o: Out, envs: seq<Envelope>): DataFile
  {
    var o' := PointsOut(EnvelopesOut(o, envs), envs);
    DataFile(o'.items, o'.blocks)
  }

  lemma {:induction false} SaveFileOf(m: MapData)
    ensures SaveFile(m) == FileOf(GroupsEnd(m).out, m.envelopes)
  {
  }

  /** The envelope section adds no block and, for every other item type, no item. */
  lemma {:induction false} EnvelopeTail(o: Out, envs: seq<Envelope>, t: ItemType)
    requires !EnvelopeSectionType(t)
    ensures var f := FileOf(o, envs);
      f.blocks == o.blocks && o.items <= f.items && f.GetType(t) == OfType(o.items, t)
  {
    var envItems := seq(|envs|, e requires 0 <= e < |envs| => EnvelopeItemAt(envs, e));
    var pts := [Item(EnvPointsType, 0, AllPointWords(envs))];
    var bzs := if BezierUsed(envs) then [Item(EnvPointsBezierType, 0, AllBezierWords(envs))] else [];
    SectionItems(o, envs, envItems, pts, bzs);
    TailOfType(o.items, envItems, pts, bzs, t);
  }

  lemma {:induction false} TailOfType(a: seq<Item>, x: seq<Item>, y: seq<Item>, z: seq<Item>, t: ItemType)
    requires forall k :: 0 <= k < |x| ==> x[k].typ == EnvelopeType
    requires forall k :: 0 <= k < |y| ==> y[k].typ == EnvPointsType
    requires forall k :: 0 <= k < |z| ==> z[k].typ == EnvPointsBezierType
    requires !EnvelopeSectionType(t)
    ensures a <= a + x + y + z && OfType(a + x + y + z, t) == OfType(a, t)
  {
    SectionOfType(a, x, y, z, t);
    OfTypeOther(x, EnvelopeType, t);
    OfTypeOther(y, EnvPointsType, t);
    OfTypeOther(z, EnvPointsBezierType, t);
    assert OfType(a, t) + [] + [] + [] == OfType(a, t);
  }

  /**
   * The envelope section comes last, so the saved file has the blocks of
   * the group section's end and, for every other item type, its items.
   */
  lemma {:induction false} EnvelopesLast(m: MapData)
    ensures SaveFile(m).blocks == GroupsEnd(m).out.blocks && GroupsEnd(m).out.items <= SaveFile(m).items
    ensures forall t :: !EnvelopeSectionType(t) ==> SaveFile(m).GetType(t) == OfType(GroupsEnd(m).out.items, t)
  {
    EnvelopeTail(GroupsEnd(m).out, m.envelopes, InfoType);
    forall t | !EnvelopeSectionType(t)
      ensures SaveFile(m).GetType(t) == OfType(GroupsEnd(m).out.items, t)
    {
      EnvelopeTail(GroupsEnd(m).out, m.envelopes, t);
    }
  }

  /** The group section, read from a file that keeps its blocks: its layers, groups, extensions and automapper items. */
  lemma {:induction false} GroupSection(f: DataFile, gs: seq<Group>, s0: SaveState, s4: SaveState, nImages: int, nSounds: int, svc: Services)
    requires LayersSaveable(gs, nImages, nSounds)
    requires s4 == GroupsOut(s0, gs) && KeepsBlocks(s4.out, f)
    requires s0.groupCount == 0 && AllOf(s0.out.items, PRE_SECTION)
    ensures GroupsRead(f, gs, |gs|, s0, s4, nImages, nSounds, svc) && GroupsMapped(gs, |gs|, s4, svc)
    ensures KeepsBlocks(s0.out, f)
  {
    assert gs[..|gs|] == gs;
    OfTypeOutside(s0.out.items, PRE_SECTION, LayerType);
    OfTypeOutside(s0.out.items, PRE_SECTION, AutoMapperConfigType);
    GroupsSection(f, gs, |gs|, s0, nImages, nSounds, svc);
  }

  /** The group section of a saved map, read from the saved file. */
  lemma {:induction false} GroupPart(m: MapData, svc: Services)
    requires Saveable(m)
    requires AllOf(PreOut(m).items, PRE_SECTION)
    ensures var f := SaveFile(m);
      && GroupsRead(f, m.groups, |m.groups|, GroupsStart(m), GroupsEnd(m), |m.images|, |m.sounds|, svc)
      && GroupsMapped(m.groups, |m.groups|, GroupsEnd(m), svc)
      && KeepsBlocks(PreOut(m), f)
  {
    EnvelopesLast(m);
    GroupSection(SaveFile(m), m.groups, GroupsStart(m), GroupsEnd(m), |m.images|, |m.sounds|, svc);
  }

  lemma {:induction false} GroupsOutGrows(s: SaveState, gs: seq<Group>)
    ensures Grows(s.out, GroupsOut(s, gs).out)
    decreases |gs|
  {
    if gs != [] {
      var t := GroupsOut(s, gs[..|gs| - 1]);
      GroupsOutGrows(s, gs[..|gs| - 1]);
      GroupOutGrows(t, gs[|gs| - 1]);
      GrowsTrans(s.out, t.out, GroupsOut(s, gs).out);
    }
  }

  /**
   * The sections before the groups: the version item, the info item that
   * loads back as the info and the settings, the image items that load back
   * as the images in their saved form, and the sound items that load back
   * as the sounds.
   */
  lemma {:induction false} PreSection(f: DataFile, m: MapData, svc: Services) returns (ii: Item, img: seq<Item>, snd: seq<Item>)
    requires StringsSaveable(m) && KeepsBlocks(PreOut(m), f)
    ensures PreShaped(PreOut(m), ii, img, snd)
    ensures ii.typ == InfoType && ii.id == 0 && |ii.data| == INFO_WORDS
    ensures InfoStep(f, InfoState(EMPTY_INFO, [], false), ii, 4 * INFO_WORDS) == InfoState(m.info, m.settings, m.settings == [])
    ensures AllOf(img, {ImageType}) && LoadImages(f, img, svc) == SavedImages(m.images, svc)
    ensures AllOf(snd, {SoundType}) && LoadSounds(f, snd, svc) == m.sounds
  {
    var o1 := InfoOut(VERSION_OUT, m.info, m.settings);
    var o2 := ImagesOut(o1, m.images);
    var o3 := SoundsOut(o2, m.sounds);
    SoundsSection(o2, m.sounds, f, svc);
    KeepsEarlier(o2, o3, f);
    ImagesSection(o1, m.images, f, svc);
    KeepsEarlier(o1, o2, f);
    InfoItemRoundTrip(VERSION_OUT, m.info, m.settings, f);
    ii := o1.items[1];
    img := Added(o1, o2);
    snd := Added(o2, o3);
    assert o1.items == VERSION_OUT.items + [ii];
    Chain(VERSION_OUT.items, ii, o1, o2, o3);
    PreShape(o3, ii, img, snd);
  }

  /**
   * What is written before the groups: the version item first, then items
   * of the four types, with the info item, the image items and the sound
   * items as the items of their types.
   */
  predicate PreShaped(o3: Out, ii: Item, img: seq<Item>, snd: seq<Item>)
  {
    && o3.items != [] && o3.items[0] == VERSION_OUT.items[0] && AllOf(o3.items, PRE_SECTION)
    && OfType(o3.items, InfoType) == [ii] && OfType(o3.items, ImageType) == img && OfType(o3.items, SoundType) == snd
  }

  lemma {:induction false} PreShape(o3: Out, ii: Item, img: seq<Item>, snd: seq<Item>)
    requires o3.items == VERSION_OUT.items + [ii] + img + snd
    requires ii.typ == InfoType && AllOf(img, {ImageType}) && AllOf(snd, {SoundType})
    ensures PreShaped(o3, ii, img, snd)
  {
    PreAllOf(ii, img, snd);
    PreItems(ii, img, snd);
  }

  lemma {:induction false} Chain(v: seq<Item>, ii: Item, o1: Out, o2: Out, o3: Out)
    requires o1.items == v + [ii] && Grows(o1, o2) && Grows(o2, o3)
    ensures o3.items == v + [ii] + Added(o1, o2) + Added(o2, o3)
  {
    assert o2.items == o1.items + Added(o1, o2);
    assert o3.items == o2.items + Added(o2, o3);
  }

  /** The version item, the info item, image items and sound items: all of the types written before the groups. */
  lemma {:induction false} PreAllOf(ii: Item, img: seq<Item>, snd: seq<Item>)
    requires ii.typ == InfoType && AllOf(img, {ImageType}) && AllOf(snd, {SoundType})
    ensures AllOf(VERSION_OUT.items + [ii] + img + snd, PRE_SECTION)
  {
    var a := VERSION_OUT.items + [ii] + img + snd;
    forall k | 0 <= k < |a|
      ensures a[k].typ in PRE_SECTION
    {
      if k >= 2 + |img| {
        assert a[k] == snd[k - 2 - |img|];
      } else if k >= 2 {
        assert a[k] == img[k - 2];
      }
    }
  }

  /** The items of type t of four parts of which only one holds any. */
  lemma {:induction false} OnlyPart(a: seq<Item>, b: seq<Item>, c: seq<Item>, d: seq<Item>, t: ItemType, x: seq<Item>)
    requires [OfType(a, t), OfType(b, t), OfType(c, t), OfType(d, t)] in
             {[x, [], [], []], [[], x, [], []], [[], [], x, []], [[], [], [], x]}
    ensures OfType(a + b + c + d, t) == x
  {
    SectionOfType(a, b, c, d, t);
  }

  lemma {:induction false} OneOfType(x: Item, t: ItemType)
    ensures OfType([x], t) == if x.typ == t then [x] else []
  {
    assert [x][..0] == [];
  }

  /**
   * Below the version item, the info item, the image items and the sound
   * items: the items of each of the three last types are those written.
   */
  lemma {:induction false} PreItems(ii: Item, img: seq<Item>, snd: seq<Item>)
    requires ii.typ == InfoType && AllOf(img, {ImageType}) && AllOf(snd, {SoundType})
    ensures var a := VERSION_OUT.items + [ii] + img + snd;
      OfType(a, InfoType) == [ii] && OfType(a, ImageType) == img && OfType(a, SoundType) == snd
  {
    PreInfoItems(VERSION_OUT.items, ii, img, snd);
    PreImageItems(VERSION_OUT.items, ii, img, snd);
    PreSoundItems(VERSION_OUT.items, ii, img, snd);
  }

  lemma {:induction false} PreInfoItems(v: seq<Item>, ii: Item, img: seq<Item>, snd: seq<Item>)
    requires v == VERSION_OUT.items && ii.typ == InfoType && AllOf(img, {ImageType}) && AllOf(snd, {SoundType})
    ensures OfType(v + [ii] + img + snd, InfoType) == [ii]
  {
    OneOfType(v[0], InfoType);
    assert v == [v[0]];
    OneOfType(ii, InfoType);
    OfTypeOutside(img, {ImageType}, InfoType);
    OfTypeOutside(snd, {SoundType}, InfoType);
    OnlyPart(v, [ii], img, snd, InfoType, [ii]);
  }

  lemma {:induction false} PreImageItems(v: seq<Item>, ii: Item, img: seq<Item>, snd: seq<Item>)
    requires v == VERSION_OUT.items && ii.typ == InfoType && AllOf(img, {ImageType}) && AllOf(snd, {SoundType})
    ensures OfType(v + [ii] + img + snd, ImageType) == img
  {
    OneOfType(v[0], ImageType);
    assert v == [v[0]];
    OneOfType(ii, ImageType);
    OfTypeInside(img, ImageType);
    OfTypeOutside(snd, {SoundType}, ImageType);
    OnlyPart(v, [ii], img, snd, ImageType, img);
  }

  lemma {:induction false} PreSoundItems(v: seq<Item>, ii: Item, img: seq<Item>, snd: seq<Item>)
    requires v == VERSION_OUT.items && ii.typ == InfoType && AllOf(img, {ImageType}) && AllOf(snd, {SoundType})
    ensures OfType(v + [ii] + img + snd, SoundType) == snd
  {
    OneOfType(v[0], SoundType);
    assert v == [v[0]];
    OneOfType(ii, SoundType);
    OfTypeOutside(img, {ImageType}, SoundType);
    OfTypeInside(snd, SoundType);
    OnlyPart(v, [ii], img, snd, SoundType, snd);
  }

  /** The items of the types written before the groups, after the group section. */
  lemma {:induction false} PreTypesIn(o3: Out, s4: Out, ii: Item, img: seq<Item>, snd: seq<Item>)
    requires Extends(o3, s4, GROUP_SECTION)
    requires PreShaped(o3, ii, img, snd)
    ensures OfType(s4.items, InfoType) == [ii] && OfType(s4.items, ImageType) == img && OfType(s4.items, SoundType) == snd
  {
    GroupsAddNone(o3, s4, InfoType);
    GroupsAddNone(o3, s4, ImageType);
    GroupsAddNone(o3, s4, SoundType);
  }

  /** Items outside the group section are not added by it. */
  lemma {:induction false} GroupsAddNone(o: Out, o': Out, t: ItemType)
    requires Extends(o, o', GROUP_SECTION) && t !in GROUP_SECTION
    ensures OfType(o'.items, t) == OfType(o.items, t)
  {
    assert o'.items == o.items + Added(o, o');
    OfTypeAppend(o.items, Added(o, o'), t);
    OfTypeOutside(Added(o, o'), GROUP_SECTION, t);
  }

  /** What is written before the groups stays in the saved file's blocks. */
  lemma {:induction false} KeepsPre(m: MapData)
    ensures KeepsBlocks(PreOut(m), SaveFile(m))
  {
    GroupsOutGrows(GroupsStart(m), m.groups);
    EnvelopesLast(m);
    KeepsEarlier(PreOut(m), GroupsEnd(m).out, SaveFile(m));
  }

  /** The group section adds group-section items only. */
  lemma {:induction false} PreExtends(m: MapData, svc: Services)
    requires Saveable(m) && AllOf(PreOut(m).items, PRE_SECTION)
    ensures Extends(PreOut(m), GroupsEnd(m).out, GROUP_SECTION)
  {
    GroupPart(m, svc);
  }

  /** The saved file's items of the types written before the groups, and its first item, the version. */
  lemma {:induction false} PreFacts(m: MapData, svc: Services) returns (ii: Item, img: seq<Item>, snd: seq<Item>)
    requires Saveable(m)
    ensures AllOf(PreOut(m).items, PRE_SECTION)
    ensures var f := SaveFile(m);
      && f.items != [] && f.items[0] == VERSION_OUT.items[0]
      && f.GetType(InfoType) == [ii] && |ii.data| == INFO_WORDS
      && InfoStep(f, InfoState(EMPTY_INFO, [], false), ii, 4 * INFO_WORDS) == InfoState(m.info, m.settings, m.settings == [])
      && f.GetType(ImageType) == img && LoadImages(f, img, svc) == SavedImages(m.images, svc)
      && f.GetType(SoundType) == snd && LoadSounds(f, snd, svc) == m.sounds
  {
    var f := SaveFile(m);
    KeepsPre(m);
    ii, img, snd := PreSection(f, m, svc);
    PreExtends(m, svc);
    SaveFileOf(m);
    PreTypesInFile(f, PreOut(m), GroupsEnd(m).out, m.envelopes, ii, img, snd);
  }

  lemma {:induction false} PreTypesInFile(f: DataFile, o3: Out, s4: Out, envs: seq<Envelope>, ii: Item, img: seq<Item>, snd: seq<Item>)
    requires f == FileOf(s4, envs) && Extends(o3, s4, GROUP_SECTION) && PreShaped(o3, ii, img, snd)
    ensures f.items != [] && f.items[0] == VERSION_OUT.items[0]
    ensures f.GetType(InfoType) == [ii] && f.GetType(ImageType) == img && f.GetType(SoundType) == snd
  {
    EnvelopeTail(s4, envs, InfoType);
    EnvelopeTail(s4, envs, ImageType);
    EnvelopeTail(s4, envs, SoundType);
    PreTypesInData(f, o3, s4, ii, img, snd);
  }

  /** The saved file's first item and its items of the types written before the groups. */
  lemma {:induction false} PreTypesInData(f: DataFile, o3: Out, s4: Out, ii: Item, img: seq<Item>, snd: seq<Item>)
    requires Extends(o3, s4, GROUP_SECTION) && PreShaped(o3, ii, img, snd) && s4.items <= f.items
    requires f.GetType(InfoType) == OfType(s4.items, InfoType) && f.GetType(ImageType) == OfType(s4.items, ImageType)
    requires f.GetType(SoundType) == OfType(s4.items, SoundType)
    ensures f.items != [] && f.items[0] == VERSION_OUT.items[0]
    ensures f.GetType(InfoType) == [ii] && f.GetType(ImageType) == img && f.GetType(SoundType) == snd
  {
    PreTypesIn(o3, s4, ii, img, snd);
    assert s4.items[0] == o3.items[0];
  }

  // ---------------------------------------------------------------------
  // The saved file, part by part

  /** The saved file passes the version check, and its info item loads back as the info and the settings. */
  lemma {:induction false} FileInfo(m: MapData, svc: Services)
    requires Saveable(m)
    ensures VersionOk(SaveFile(m)) && LoadInfo(SaveFile(m)) == InfoState(m.info, m.settings, m.settings == [])
  {
    var ii, img, snd := PreFacts(m, svc);
    InfoFromFile(SaveFile(m), ii, m.info, m.settings);
  }

  lemma {:induction false} InfoFromFile(f: DataFile, ii: Item, info: MapInfo, settings: seq<seq<byte>>)
    requires f.items != [] && f.items[0] == VERSION_OUT.items[0]
    requires f.GetType(InfoType) == [ii] && |ii.data| == INFO_WORDS
    requires InfoStep(f, InfoState(EMPTY_INFO, [], false), ii, 4 * INFO_WORDS) == InfoState(info, settings, settings == [])
    ensures VersionOk(f) && LoadInfo(f) == InfoState(info, settings, settings == [])
  {
    assert FindItem(f.items, VersionType, 0) == Some(f.items[0]);
    var st := InfoState(EMPTY_INFO, [], false);
    assert InfoItemSize([ii]) == 4 * INFO_WORDS;
    assert [ii][..0] == [];
    assert InfoFold(f, st, [ii], 4 * INFO_WORDS) == InfoStep(f, st, ii, 4 * INFO_WORDS);
  }

  /** The images of a saved file load back in their saved form, the sounds as they were. */
  lemma {:induction false} FileImagesSounds(m: MapData, svc: Services)
    requires Saveable(m)
    ensures var f := SaveFile(m);
      LoadImages(f, f.GetType(ImageType), svc) == SavedImages(m.images, svc) && LoadSounds(f, f.GetType(SoundType), svc) == m.sounds
  {
    var ii, img, snd := PreFacts(m, svc);
  }

  /** Layer items that load as the written layers, in the form the group reader takes. */
  lemma {:induction false} LoadsFrom(f: DataFile, o: Out, gs: seq<Group>, nImages: int, nSounds: int, svc: Services)
    requires LayersLoad(f, o, AllWritten(gs), nImages, nSounds, svc)
    ensures |LayerItems(o)| == LayerTotal(gs)
    ensures forall j :: 0 <= j < |LayerItems(o)| ==> LoadsAt(f, LayerItems(o), LoadedLayers(gs, svc), j, nImages, nSounds, svc)
  {
  }

  /**
   * The groups read from a file holding a group section written from s0,
   * with the automapper items applied, are the groups in their saved form.
   */
  lemma {:induction false} GroupsFromFile(f: DataFile, gs: seq<Group>, s0: SaveState, s4: SaveState, nImages: int, nSounds: int, svc: Services)
    requires s0.groupCount == 0 && s0.layerCount == 0 && AllOf(s0.out.items, PRE_SECTION)
    requires GroupsRead(f, gs, |gs|, s0, s4, nImages, nSounds, svc) && GroupsMapped(gs, |gs|, s4, svc)
    requires f.GetType(LayerType) == LayerItems(s4.out) && f.GetType(GroupType) == GroupItemsOf(s0, gs)
    requires f.GetType(GroupExType) == GroupExItems(s4.out) && f.GetType(AutoMapperConfigType) == AutomapperItems(s4.out)
    requires forall k :: 0 <= k < |gs| ==> |gs[k].name| == NAME_WORDS
    ensures |f.GetType(GroupType)| == |gs|
    ensures ApplyAutomappers(LoadGroups(f, |gs|, nImages, nSounds, svc), f.GetType(AutoMapperConfigType)) == SavedGroups(gs, svc)
  {
    GroupsFileShape(f, gs, s0, s4, nImages, nSounds, svc);
    GroupsReadBack(f, gs, s0, |gs|, nImages, nSounds, svc);
    assert LoadedGroups(gs, svc)[..|gs|] == LoadedGroups(gs, svc);
    MixedEnd(gs, svc);
  }

  /** A file holding a group section written from s0 holds what the group reader needs. */
  lemma {:induction false} GroupsFileShape(f: DataFile, gs: seq<Group>, s0: SaveState, s4: SaveState, nImages: int, nSounds: int, svc: Services)
    requires s0.groupCount == 0 && s0.layerCount == 0 && AllOf(s0.out.items, PRE_SECTION)
    requires GroupsRead(f, gs, |gs|, s0, s4, nImages, nSounds, svc)
    requires f.GetType(LayerType) == LayerItems(s4.out) && f.GetType(GroupType) == GroupItemsOf(s0, gs)
    requires f.GetType(GroupExType) == GroupExItems(s4.out)
    requires forall k :: 0 <= k < |gs| ==> |gs[k].name| == NAME_WORDS
    ensures GroupsInFile(f, gs, s0, nImages, nSounds, svc)
  {
    OfTypeOutside(s0.out.items, PRE_SECTION, GroupExType);
    assert [] + GroupExOf(gs, |gs|) == GroupExOf(gs, |gs|);
    assert gs[..|gs|] == gs;
    LoadsFrom(f, s4.out, gs, nImages, nSounds, svc);
  }

  /** The group items of a group section written from a state with no layer and no group items yet. */
  lemma {:induction false} GroupItemsIn(gs: seq<Group>, s0: SaveState)
    requires s0.groupCount == 0 && s0.layerCount == 0 && AllOf(s0.out.items, PRE_SECTION)
    ensures GroupItems(GroupsOut(s0, gs).out) == GroupItemsOf(s0, gs)
  {
    OfTypeOutside(s0.out.items, PRE_SECTION, LayerType);
    OfTypeOutside(s0.out.items, PRE_SECTION, GroupType);
    GroupsOutCounts(s0, gs);
    assert [] + GroupItemsOf(s0, gs) == GroupItemsOf(s0, gs);
  }

  /** The groups of a saved file, read and configured by their automapper items, are the groups in their saved form. */
  lemma {:induction false} FileGroups(m: MapData, svc: Services)
    requires Saveable(m)
    ensures var f := SaveFile(m);
      && |f.GetType(GroupType)| == |m.groups|
      && ApplyAutomappers(LoadGroups(f, |m.groups|, |m.images|, |m.sounds|, svc), f.GetType(AutoMapperConfigType))
         == SavedGroups(m.groups, svc)
  {
    PreOutTypes(m, svc);
    GroupPart(m, svc);
    FileGroupTypes(m);
    GroupsFromFile(SaveFile(m), m.groups, GroupsStart(m), GroupsEnd(m), |m.images|, |m.sounds|, svc);
  }

  lemma {:induction false} PreOutTypes(m: MapData, svc: Services)
    requires Saveable(m)
    ensures AllOf(PreOut(m).items, PRE_SECTION)
  {
    var ii, img, snd := PreFacts(m, svc);
  }

  /** The saved file's items of the group-section types are those the group section wrote. */
  lemma {:induction false} FileGroupTypes(m: MapData)
    requires AllOf(PreOut(m).items, PRE_SECTION)
    ensures var f, s4 := SaveFile(m), GroupsEnd(m).out;
      && f.GetType(LayerType) == LayerItems(s4) && f.GetType(GroupType) == GroupItemsOf(GroupsStart(m), m.groups)
      && f.GetType(GroupExType) == GroupExItems(s4) && f.GetType(AutoMapperConfigType) == AutomapperItems(s4)
  {
    EnvelopesLast(m);
    FileGroupItems(m);
  }

  lemma {:induction false} FileGroupItems(m: MapData)
    requires AllOf(PreOut(m).items, PRE_SECTION)
    ensures SaveFile(m).GetType(GroupType) == GroupItemsOf(GroupsStart(m), m.groups)
  {
    EnvelopesLast(m);
    GroupItemsIn(m.groups, GroupsStart(m));
  }

  /** The envelopes of a saved file load back in their saved form. */
  lemma {:induction false} FileEnvelopes(m: MapData)
    ensures var f := SaveFile(m);
      LoadEnvelopes(MakePointAccess(f), f.GetType(EnvelopeType)) == SavedEnvelopes(m.envelopes)
  {
    var f := SaveFile(m);
    var ld := LoadEnvelopes(MakePointAccess(f), f.GetType(EnvelopeType));
    SavedEnvelopesLoad(m);
    EnvelopesEqual(ld, m.envelopes);
  }

  /** Envelopes that agree field by field with the saved form of `envs` are that saved form. */
  lemma {:induction false} EnvelopesEqual(ld: seq<Envelope>, envs: seq<Envelope>)
    requires |ld| == |envs|
    requires forall e :: 0 <= e < |ld| ==>
           ld[e].channels == envs[e].channels && ld[e].synchronized == envs[e].synchronized
           && ld[e].name == SavedName(envs[e].name) && |ld[e].points| == |envs[e].points|
           && forall p :: 0 <= p < |ld[e].points| ==> ld[e].points[p] == SavedPoint(envs[e].points, p, BezierUsed(envs))
    ensures ld == SavedEnvelopes(envs)
  {
    forall e | 0 <= e < |ld|
      ensures ld[e] == SavedEnvelope(envs, e)
    {
      var want := SavedEnvelope(envs, e);
      assert ld[e].points == want.points;
    }
  }

  // ---------------------------------------------------------------------
  // The round trip

  /**
   * A saved map passes the loader's version check and loads back as its
   * saved form: the same info and settings, the images in their saved
   * form, the same sounds, the groups with their written layers in their
   * saved form and the automapper settings of their tile layers, and the
   * envelopes with their names and points as stored.
   */
  lemma {:induction false} SavedMapLoads(m: MapData, svc: Services)
    requires Saveable(m)
    ensures VersionOk(SaveFile(m)) && LoadedMap(SaveFile(m), svc) == SavedMap(m, svc)
  {
    FileInfo(m, svc);
    FileImagesSounds(m, svc);
    FileGroups(m, svc);
    FileEnvelopes(m);
  }
}
