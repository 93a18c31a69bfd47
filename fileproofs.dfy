/**
 * Properties of a whole saved file: the sections before the envelopes write
 * no envelope, point or tangent items, so every envelope of a saved map is
 * read back from the file the saver produces.
 */
module FileProperties {
  import opened Container
  import opened MapItems
  import opened MapModel
  import opened SaveSpec
  import opened LoadSpec
  import opened MapProperties

  predicate EnvelopeSectionType(t: ItemType)
  {
    t == EnvelopeType || t == EnvPointsType || t == EnvPointsBezierType
  }

  /** No item of an envelope-section type among `items`. */
  predicate NoEnvelopeItems(items: seq<Item>)
  {
    forall k :: 0 <= k < |items| ==> !EnvelopeSectionType(items[k].typ)
  }

  lemma {:induction false} EmitKeepsNone(o: Out, t: ItemType, id: int, data: seq<int>)
    requires NoEnvelopeItems(o.items) && !EnvelopeSectionType(t)
    ensures NoEnvelopeItems(Emit(o, t, id, data).items)
  {
    var items := Emit(o, t, id, data).items;
    forall k | 0 <= k < |items|
      ensures !EnvelopeSectionType(items[k].typ)
    {
      if k < |o.items| {
        assert items[k] == o.items[k];
      }
    }
  }

  lemma {:induction false} InfoWritesNone(o: Out, info: MapInfo, settings: seq<seq<byte>>)
    requires NoEnvelopeItems(o.items)
    ensures NoEnvelopeItems(InfoOut(o, info, settings).items)
  {
    var a := StringRef(o, info.author);
    var v := StringRef(a.0, info.version);
    var c := StringRef(v.0, info.credits);
    var l := StringRef(c.0, info.license);
    var s := if settings == [] then (l.0, -1) else (Store(l.0, PackSettings(settings)), |l.0.blocks|);
    assert s.0.items == o.items;
    EmitKeepsNone(s.0, InfoType, 0, InfoWords(a.1, v.1, c.1, l.1, s.1));
  }

  lemma {:induction false} ImagesWriteNone(o: Out, imgs: seq<Image>)
    requires NoEnvelopeItems(o.items)
    ensures NoEnvelopeItems(ImagesOut(o, imgs).items)
  {
    if imgs != [] {
      var pre := ImagesOut(o, imgs[..|imgs| - 1]);
      ImagesWriteNone(o, imgs[..|imgs| - 1]);
      var img := imgs[|imgs| - 1];
      var o1 := Store(pre, img.name + [0]);
      var d := if img.external != 0 then (o1, -1) else (Store(o1, SavedPixels(img)), |o1.blocks|);
      assert d.0.items == pre.items;
      EmitKeepsNone(d.0, ImageType, |imgs| - 1, [IMAGE_VERSION, img.width, img.height, img.external, |pre.blocks|, d.1]);
    }
  }

  lemma {:induction false} SoundsWriteNone(o: Out, snds: seq<Sound>)
    requires NoEnvelopeItems(o.items)
    ensures NoEnvelopeItems(SoundsOut(o, snds).items)
  {
    if snds != [] {
      var pre := SoundsOut(o, snds[..|snds| - 1]);
      SoundsWriteNone(o, snds[..|snds| - 1]);
      var snd := snds[|snds| - 1];
      var o1 := Store(pre, snd.name + [0]);
      var o2 := Store(o1, snd.data);
      EmitKeepsNone(o2, SoundType, |snds| - 1, [SOUND_ITEM_VERSION, 0, |pre.blocks|, |o1.blocks|, |snd.data|]);
    }
  }

  lemma {:induction false} LayerWritesNone(s: SaveState, n: int, l: Layer)
    requires NoEnvelopeItems(s.out.items)
    ensures NoEnvelopeItems(LayerOut(s, n, l).0.out.items)
  {
    var o' := LayerOut(s, n, l).0.out;
    if l.TilesLayer? {
      TilemapItem(s, n, l);
      forall k | 0 <= k < |o'.items|
        ensures !EnvelopeSectionType(o'.items[k].typ)
      {
        if k < |s.out.items| {
          assert o'.items[k] == s.out.items[k];
        }
      }
    } else if l.QuadsLayer? && l.quads != [] {
      var o := Store(s.out, EncodeWords(QuadsWords(l.quads)));
      var words := [0, LAYERTYPE_QUADS, l.flags, QUADS_VERSION, |l.quads|, |s.out.blocks|, l.quadImage] + NameWords(l.name, NAME_WORDS);
      EmitKeepsNone(o, LayerType, s.layerCount, words);
    } else if l.SoundsLayer? && l.sources != [] {
      var o := Store(s.out, EncodeWords(SourcesWords(l.sources)));
      var words := [0, LAYERTYPE_SOUNDS, l.flags, SOUNDS_VERSION, |l.sources|, |s.out.blocks|, l.sound] + NameWords(l.name, NAME_WORDS);
      EmitKeepsNone(o, LayerType, s.layerCount, words);
    }
  }

  lemma {:induction false} LayersWriteNone(s: SaveState, n: int, ls: seq<Layer>)
    requires NoEnvelopeItems(s.out.items)
    ensures NoEnvelopeItems(LayersOut(s, n, ls).0.out.items)
  {
    if ls != [] {
      var r := LayersOut(s, n, ls[..|ls| - 1]);
      LayersWriteNone(s, n, ls[..|ls| - 1]);
      LayerWritesNone(r.0, r.1, ls[|ls| - 1]);
    }
  }

  lemma {:induction false} GroupsWriteNone(s: SaveState, gs: seq<Group>)
    requires NoEnvelopeItems(s.out.items)
    ensures NoEnvelopeItems(GroupsOut(s, gs).out.items)
  {
    if gs != [] {
      var t := GroupsOut(s, gs[..|gs| - 1]);
      GroupsWriteNone(s, gs[..|gs| - 1]);
      var g := gs[|gs| - 1];
      var r := LayersOut(t, 0, g.layers);
      LayersWriteNone(t, 0, g.layers);
      var o := Emit(r.0.out, GroupType, t.groupCount, GroupWords(g, t.layerCount, r.1));
      EmitKeepsNone(r.0.out, GroupType, t.groupCount, GroupWords(g, t.layerCount, r.1));
      EmitKeepsNone(o, GroupExType, t.groupCount, [GROUPEX_VERSION, g.parallaxZoom]);
    }
  }

  lemma {:induction false} NoneOfType(items: seq<Item>)
    requires NoEnvelopeItems(items)
    ensures OfType(items, EnvelopeType) == [] && OfType(items, EnvPointsType) == []
    ensures OfType(items, EnvPointsBezierType) == []
  {
  }

  /** The file a map is saved to holds exactly the envelope, point and tangent items of its envelopes. */
  lemma {:induction false} SavedFileHoldsEnvelopes(m: MapData)
    ensures HoldsEnvelopes(SaveFile(m), m.envelopes)
  {
    assert NoEnvelopeItems(VERSION_OUT.items);
    var o1 := InfoOut(VERSION_OUT, m.info, m.settings);
    InfoWritesNone(VERSION_OUT, m.info, m.settings);
    var o2 := ImagesOut(o1, m.images);
    ImagesWriteNone(o1, m.images);
    var o3 := SoundsOut(o2, m.sounds);
    SoundsWriteNone(o2, m.sounds);
    var s4 := GroupsOut(SaveState(o3, 0, 0, 0), m.groups);
    GroupsWriteNone(SaveState(o3, 0, 0, 0), m.groups);
    NoneOfType(s4.out.items);
    EnvelopeSectionHeld(s4.out, m.envelopes);
  }

  lemma {:induction false} LoadEnvelopesAt(pa: PointAccess, its: seq<Item>, e: nat)
    requires e < |its|
    ensures LoadEnvelopes(pa, its)[e] == LoadEnvelope(pa, its[e])
  {
    if e < |its| - 1 {
      LoadEnvelopesAt(pa, its[..|its| - 1], e);
    }
  }

  /**
   * Every envelope of a saved map loads back from the saved file with its
   * channels, synchronisation flag, name and number of points, point p of
   * envelope e being read from StartPoint + p with the time, curve type,
   * values and (when any point is a bezier) tangents that were stored.
   */
  lemma {:induction false} SavedEnvelopesLoad(m: MapData)
    ensures var f := SaveFile(m);
      var ld := LoadEnvelopes(MakePointAccess(f), f.GetType(EnvelopeType));
      |ld| == |m.envelopes|
      && forall e :: 0 <= e < |ld| ==>
           ld[e].channels == m.envelopes[e].channels && ld[e].synchronized == m.envelopes[e].synchronized
           && ld[e].name == SavedName(m.envelopes[e].name) && |ld[e].points| == |m.envelopes[e].points|
           && forall p :: 0 <= p < |ld[e].points| ==> ld[e].points[p] == SavedPoint(m.envelopes[e].points, p, BezierUsed(m.envelopes))
  {
    var f := SaveFile(m);
    SavedFileHoldsEnvelopes(m);
    var its := f.GetType(EnvelopeType);
    forall e | 0 <= e < |m.envelopes|
      ensures var env := LoadEnvelopes(MakePointAccess(f), its)[e];
        env.channels == m.envelopes[e].channels && env.synchronized == m.envelopes[e].synchronized
        && env.name == SavedName(m.envelopes[e].name) && |env.points| == |m.envelopes[e].points|
        && forall p :: 0 <= p < |env.points| ==> env.points[p] == SavedPoint(m.envelopes[e].points, p, BezierUsed(m.envelopes))
    {
      LoadEnvelopesAt(MakePointAccess(f), its, e);
      EnvelopeRoundTrip(f, m.envelopes, e);
    }
  }
}
