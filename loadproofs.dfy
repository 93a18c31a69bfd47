/**
 * Properties of what the loader builds: the sanity pass against a
 * one-step reference definition, the automapper items, and the tile
 * indices derived from the physics side arrays.
 */
module LoadProperties {
  import opened Container
  import opened MapItems
  import opened MapModel
  import opened LoadSpec

  // ---------------------------------------------------------------------
  // The sanity pass

  /** Image `i` is one of the first `n` images and its sides are not multiples of 16. */
  predicate BadAmong(images: seq<Image>, n: nat, i: int)
    requires n <= |images|
  {
    0 <= i < n && BadImage(images[i])
  }

  /** A layer once the first `n` images are checked: a tile layer on a bad image loses it, every other layer is kept. */
  function Sanitized(images: seq<Image>, n: nat, l: Layer): Layer
    requires n <= |images|
  {
    if l.TilesLayer? && BadAmong(images, n, l.image) then l.(image := -1) else l
  }

  /** Every layer of every group, sanitized. */
  function SanitizedGroups(images: seq<Image>, gs: seq<Group>, n: nat): (r: seq<Group>)
    requires n <= |images|
    ensures |r| == |gs|
  {
    seq(|gs|, g requires 0 <= g < |gs| =>
      gs[g].(layers := seq(|gs[g].layers|, l requires 0 <= l < |gs[g].layers| => Sanitized(images, n, gs[g].layers[l]))))
  }

  /** The reset a sanity pass over the first `n` images owes: layer `l` of group `g` uses bad image `e.image`. */
  predicate Owed(images: seq<Image>, gs: seq<Group>, n: nat, e: SanityError)
    requires n <= |images|
  {
    0 <= e.group < |gs| && 0 <= e.layer < |gs[e.group].layers|
    && UsesImage(gs[e.group].layers[e.layer], e.image) && BadAmong(images, n, e.image)
  }

  predicate NoDuplicates<T(==)>(s: seq<T>)
  {
    forall a, b :: 0 <= a < b < |s| ==> s[a] != s[b]
  }

  lemma {:induction false} NoDuplicatesConcat<T>(s: seq<T>, t: seq<T>)
    requires NoDuplicates(s) && NoDuplicates(t)
    requires forall x :: x in s ==> x !in t
    ensures NoDuplicates(s + t)
  {
    forall a, b | 0 <= a < b < |s + t|
      ensures (s + t)[a] != (s + t)[b]
    {
      if b < |s| {
        assert (s + t)[a] == s[a] && (s + t)[b] == s[b];
      } else if a >= |s| {
        assert (s + t)[a] == t[a - |s|] && (s + t)[b] == t[b - |s|];
      } else {
        assert (s + t)[a] == s[a] && (s + t)[b] == t[b - |s|];
        assert s[a] in s;
      }
    }
  }

  /** Checking image `n` after the first `n` leaves every layer as the reference pass over `n + 1` images does. */
  lemma {:induction false} SanitizedNext(images: seq<Image>, n: nat, l: Layer)
    requires n < |images|
    ensures BadImage(images[n]) ==> DetachImage(Sanitized(images, n, l), n) == Sanitized(images, n + 1, l)
    ensures !BadImage(images[n]) ==> Sanitized(images, n, l) == Sanitized(images, n + 1, l)
  {
  }

  /** A layer of the sanitized groups uses image `n` exactly when the original layer does. */
  lemma {:induction false} SanitizedUses(images: seq<Image>, n: nat, l: Layer)
    requires n <= |images|
    ensures UsesImage(Sanitized(images, n, l), n) <==> UsesImage(l, n)
  {
  }

  lemma {:induction false} DetachSanitized(images: seq<Image>, gs: seq<Group>, n: nat)
    requires n < |images|
    ensures BadImage(images[n]) ==> DetachAll(SanitizedGroups(images, gs, n), n) == SanitizedGroups(images, gs, n + 1)
    ensures !BadImage(images[n]) ==> SanitizedGroups(images, gs, n) == SanitizedGroups(images, gs, n + 1)
  {
    var s, s' := SanitizedGroups(images, gs, n), SanitizedGroups(images, gs, n + 1);
    forall g, l | 0 <= g < |gs| && 0 <= l < |gs[g].layers|
      ensures BadImage(images[n]) ==> DetachImage(s[g].layers[l], n) == s'[g].layers[l]
      ensures !BadImage(images[n]) ==> s[g].layers[l] == s'[g].layers[l]
    {
      SanitizedNext(images, n, gs[g].layers[l]);
    }
    if BadImage(images[n]) {
      var d := DetachAll(s, n);
      forall g | 0 <= g < |gs|
        ensures d[g] == s'[g]
      {
        assert d[g].layers == s'[g].layers;
      }
    } else {
      forall g | 0 <= g < |gs|
        ensures s[g] == s'[g]
      {
        assert s[g].layers == s'[g].layers;
      }
    }
  }

  /** The errors for group `g` and image `i`: exactly the layers of the group that use the image, each once. */
  lemma {:induction false} LayerErrorsExact(ls: seq<Layer>, i: int, g: int, n: nat)
    requires n <= |ls|
    ensures forall e :: e in LayerErrors(ls, i, g, n) <==> e.image == i && e.group == g && 0 <= e.layer < n && UsesImage(ls[e.layer], i)
    ensures NoDuplicates(LayerErrors(ls, i, g, n))
  {
    if n > 0 {
      LayerErrorsExact(ls, i, g, n - 1);
      var last := if UsesImage(ls[n - 1], i) then [SanityError(i, g, n - 1)] else [];
      NoDuplicatesConcat(LayerErrors(ls, i, g, n - 1), last);
    }
  }

  /** The errors for image `i` over the first `n` groups: exactly the layers that use it, each once. */
  lemma {:induction false} GroupErrorsExact(gs: seq<Group>, i: int, n: nat)
    requires n <= |gs|
    ensures forall e :: e in GroupErrors(gs, i, n) <==>
      e.image == i && 0 <= e.group < n && 0 <= e.layer < |gs[e.group].layers| && UsesImage(gs[e.group].layers[e.layer], i)
    ensures NoDuplicates(GroupErrors(gs, i, n))
  {
    if n > 0 {
      GroupErrorsExact(gs, i, n - 1);
      var ls := gs[n - 1].layers;
      LayerErrorsExact(ls, i, n - 1, |ls|);
      NoDuplicatesConcat(GroupErrors(gs, i, n - 1), LayerErrors(ls, i, n - 1, |ls|));
    }
  }

  /**
   * After the first `n` images are checked, the groups are the reference
   * pass's, and the errors are exactly the resets that pass makes, one each.
   */
  lemma {:induction false} SanityExact(images: seq<Image>, gs: seq<Group>, n: nat)
    requires n <= |images|
    ensures Sanity(images, gs, n).0 == SanitizedGroups(images, gs, n)
    ensures forall e :: e in Sanity(images, gs, n).1 <==> Owed(images, gs, n, e)
    ensures NoDuplicates(Sanity(images, gs, n).1)
  {
    if n == 0 {
      assert SanitizedGroups(images, gs, 0) == gs by {
        var s := SanitizedGroups(images, gs, 0);
        forall g | 0 <= g < |gs|
          ensures s[g] == gs[g]
        {
          assert s[g].layers == gs[g].layers;
        }
      }
    } else {
      var m := n - 1;
      SanityExact(images, gs, m);
      DetachSanitized(images, gs, m);
      if BadImage(images[m]) {
        var s := SanitizedGroups(images, gs, m);
        var r := Sanity(images, gs, m);
        GroupErrorsExact(s, m, |s|);
        forall g, l | 0 <= g < |gs| && 0 <= l < |gs[g].layers|
          ensures UsesImage(s[g].layers[l], m) <==> UsesImage(gs[g].layers[l], m)
        {
          SanitizedUses(images, m, gs[g].layers[l]);
        }
        NoDuplicatesConcat(r.1, GroupErrors(s, m, |s|));
      }
    }
  }

  /**
   * What the whole pass leaves: no tile layer keeps an image whose sides
   * are not multiples of 16, tile layers on good images and every other
   * layer are untouched, and each reset layer is reported once.
   */
  lemma {:induction false} SanityResult(images: seq<Image>, gs: seq<Group>)
    ensures var r := Sanity(images, gs, |images|);
      |r.0| == |gs|
      && (forall g :: 0 <= g < |gs| ==> |r.0[g].layers| == |gs[g].layers|)
      && (forall g, l :: 0 <= g < |gs| && 0 <= l < |gs[g].layers| && r.0[g].layers[l].TilesLayer? ==>
            !(0 <= r.0[g].layers[l].image < |images| && BadImage(images[r.0[g].layers[l].image])))
      && (forall g, l :: 0 <= g < |gs| && 0 <= l < |gs[g].layers| && !gs[g].layers[l].TilesLayer? ==>
            r.0[g].layers[l] == gs[g].layers[l])
      && (forall e :: e in r.1 <==> Owed(images, gs, |images|, e))
      && NoDuplicates(r.1)
  {
    SanityExact(images, gs, |images|);
  }

  // ---------------------------------------------------------------------
  // Automapper configs

  /** Layer `b` is layer `a` with at most its automapper settings changed, and `a` is a plain tile layer if they differ. */
  predicate ConfiguredFrom(a: Layer, b: Layer)
  {
    a == b
    || (a.TilesLayer? && a.kind == PLAIN_KIND && b.TilesLayer?
        && b == a.(autoMapperConfig := b.autoMapperConfig, seed := b.seed, autoAutoMap := b.autoAutoMap))
  }

  /** Groups `b` are groups `a` with at most the automapper settings of plain tile layers changed. */
  predicate ConfiguredGroups(a: seq<Group>, b: seq<Group>)
  {
    |a| == |b|
    && (forall g :: 0 <= g < |a| ==> |b[g].layers| == |a[g].layers| && b[g] == a[g].(layers := b[g].layers))
    && (forall g, l :: 0 <= g < |a| && 0 <= l < |a[g].layers| ==> ConfiguredFrom(a[g].layers[l], b[g].layers[l]))
  }

  lemma {:induction false} ConfiguredTransitive(a: seq<Group>, b: seq<Group>, c: seq<Group>)
    requires ConfiguredGroups(a, b) && ConfiguredGroups(b, c)
    ensures ConfiguredGroups(a, c)
  {
    forall g | 0 <= g < |a|
      ensures |c[g].layers| == |a[g].layers| && c[g] == a[g].(layers := c[g].layers)
    {
    }
    forall g, l | 0 <= g < |a| && 0 <= l < |a[g].layers|
      ensures ConfiguredFrom(a[g].layers[l], c[g].layers[l])
    {
      var x, y, z := a[g].layers[l], b[g].layers[l], c[g].layers[l];
      if x != y && y != z {
        assert y.kind == x.kind;
      }
    }
  }

  /** One automapper item changes only the automapper settings of the plain tile layer it names, if any. */
  lemma {:induction false} AutomapperOnlyPlain(groups: seq<Group>, it: Item)
    ensures ConfiguredGroups(groups, ApplyAutomapper(groups, it))
    ensures AutomapperTarget(groups, it.data) ==>
      var l := ApplyAutomapper(groups, it)[Word(it.data, AM_GROUP)].layers[Word(it.data, AM_LAYER)];
      l.autoMapperConfig == Word(it.data, AM_CONFIG) && l.seed == Word(it.data, AM_SEED)
  {
    var r := ApplyAutomapper(groups, it);
    if AutomapperTarget(groups, it.data) {
      var g, l := Word(it.data, AM_GROUP), Word(it.data, AM_LAYER);
      forall h, k | 0 <= h < |groups| && 0 <= k < |groups[h].layers|
        ensures ConfiguredFrom(groups[h].layers[k], r[h].layers[k])
      {
        if h == g && k == l {
        }
      }
    } else {
      assert r == groups;
    }
  }

  /** All automapper items together change only the automapper settings of plain tile layers. */
  lemma {:induction false} AutomappersOnlyPlain(groups: seq<Group>, its: seq<Item>)
    ensures ConfiguredGroups(groups, ApplyAutomappers(groups, its))
  {
    if its == [] {
      assert ApplyAutomappers(groups, its) == groups;
    } else {
      var pre := ApplyAutomappers(groups, its[..|its| - 1]);
      AutomappersOnlyPlain(groups, its[..|its| - 1]);
      AutomapperOnlyPlain(pre, its[|its| - 1]);
      ConfiguredTransitive(groups, pre, ApplyAutomappers(groups, its));
    }
  }

  // ---------------------------------------------------------------------
  // Tile indices of the physics layers

  /** Tiles that are all empty, as a freshly constructed tile layer has them. */
  predicate EmptyTiles(l: Layer)
    requires l.TilesLayer?
  {
    forall i :: 0 <= i < |l.tiles| ==> l.tiles[i].index == 0
  }

  /** Every tile index of a tele layer is the type of its tele tile when the game accepts that type, and 0 otherwise. */
  predicate TeleIndexed(l: Layer, r: EntityRules)
    requires l.TilesLayer?
  {
    l.kind.tele ==>
      |l.side.tele| == |l.tiles|
      && (forall i :: 0 <= i < |l.tiles| ==>
            l.tiles[i].index == if r.isValidTele(l.side.tele[i].typ) then l.side.tele[i].typ else 0)
  }

  /** Every tile index of a speedup layer is the type of its speedup tile when that type is valid and the force positive, and 0 otherwise. */
  predicate SpeedupIndexed(l: Layer, r: EntityRules)
    requires l.TilesLayer?
  {
    l.kind.speedup ==>
      |l.side.speedup| == |l.tiles|
      && (forall i :: 0 <= i < |l.tiles| ==>
            l.tiles[i].index
            == if r.isValidSpeedup(l.side.speedup[i].typ) && l.side.speedup[i].force > 0 then l.side.speedup[i].typ else 0)
  }

  /** Every tile index of a tune layer is the type of its tune tile when the game accepts that type, and 0 otherwise. */
  predicate TuneIndexed(l: Layer, r: EntityRules)
    requires l.TilesLayer?
  {
    l.kind.tune ==>
      |l.side.tune| == |l.tiles|
      && (forall i :: 0 <= i < |l.tiles| ==>
            l.tiles[i].index == if r.isValidTune(l.side.tune[i].typ) then l.side.tune[i].typ else 0)
  }

  /** A switch type the loader carries into the tile layer: outside the skipped range, and armor through door or a valid switch type. */
  predicate SwitchAdmitted(r: EntityRules, typ: int)
  {
    !SwitchSkipped(r, typ) && (SwitchCopied(r, typ) || r.isValidSwitch(typ))
  }

  /** Every tile of a switch layer carries the type and flags of its switch tile when that type is admitted, and is empty otherwise. */
  predicate SwitchIndexed(l: Layer, r: EntityRules)
    requires l.TilesLayer?
  {
    l.kind.switch ==>
      |l.side.switch| == |l.tiles|
      && (forall i :: 0 <= i < |l.tiles| ==>
            l.tiles[i] == if SwitchAdmitted(r, l.side.switch[i].typ)
                          then ZERO_TILE.(index := l.side.switch[i].typ, flags := l.side.switch[i].flags)
                          else ZERO_TILE)
  }

  predicate SideIndexed(l: Layer, r: EntityRules)
  {
    l.TilesLayer? && TeleIndexed(l, r) && SpeedupIndexed(l, r) && SwitchIndexed(l, r) && TuneIndexed(l, r)
  }

  /** A freshly constructed layer of one kind: empty tiles and, for a physics kind, a side array of zero records of the same length. */
  predicate FreshTiles(l: Layer)
  {
    l.TilesLayer? && |l.tiles| == Area(l.width, l.height) && EmptyTiles(l) && SingleKind(l.kind)
    && (l.kind.tele ==>
          |l.side.tele| == |l.tiles| && forall i :: 0 <= i < |l.tiles| ==> l.side.tele[i] == TeleTile(0, 0))
    && (l.kind.speedup ==>
          |l.side.speedup| == |l.tiles| && forall i :: 0 <= i < |l.tiles| ==> l.side.speedup[i] == SpeedupTile(0, 0, 0, 0))
    && (l.kind.tune ==>
          |l.side.tune| == |l.tiles| && forall i :: 0 <= i < |l.tiles| ==> l.side.tune[i] == TuneTile(0, 0))
    && (l.kind.switch ==>
          |l.side.switch| == |l.tiles|
          && forall i :: 0 <= i < |l.tiles| ==> l.tiles[i] == ZERO_TILE && l.side.switch[i] == SwitchTile(0, 0, 0, 0))
  }

  lemma {:induction false} TeleIndices(f: DataFile, d: seq<int>, l: Layer, svc: Services)
    requires FreshTiles(l) && l.kind.tele
    ensures SideIndexed(TilesContent(f, d, l, svc), svc.rules)
  {
  }

  lemma {:induction false} SpeedupIndices(f: DataFile, d: seq<int>, l: Layer, svc: Services)
    requires FreshTiles(l) && l.kind.speedup
    ensures SideIndexed(TilesContent(f, d, l, svc), svc.rules)
  {
  }

  lemma {:induction false} SwitchIndices(f: DataFile, d: seq<int>, l: Layer, svc: Services)
    requires FreshTiles(l) && l.kind.switch
    ensures SideIndexed(TilesContent(f, d, l, svc), svc.rules)
  {
  }

  lemma {:induction false} TuneIndices(f: DataFile, d: seq<int>, l: Layer, svc: Services)
    requires FreshTiles(l) && l.kind.tune
    ensures SideIndexed(TilesContent(f, d, l, svc), svc.rules)
  {
  }

  /** Reading the tiles of a freshly constructed layer keeps its kind, and the physics indices follow their side arrays. */
  lemma {:induction false} FreshSideIndices(f: DataFile, d: seq<int>, l: Layer, svc: Services)
    requires FreshTiles(l)
    ensures SideIndexed(TilesContent(f, d, l, svc), svc.rules)
  {
    if l.kind.tele {
      TeleIndices(f, d, l, svc);
    } else if l.kind.speedup {
      SpeedupIndices(f, d, l, svc);
    } else if l.kind.switch {
      SwitchIndices(f, d, l, svc);
    } else if l.kind.tune {
      TuneIndices(f, d, l, svc);
    }
  }

  /**
   * In a loaded tele, speedup or tune layer, every tile index is the type
   * of the side tile at the same place when the game accepts that type for
   * the kind (a speedup also needs a positive force), and 0 otherwise; in a
   * loaded switch layer, every tile carries the type and flags of its
   * switch tile exactly when the loader admits that type, and is empty
   * otherwise.
   */
  lemma {:induction false} LoadedSideIndices(f: DataFile, d: seq<int>, svc: Services)
    ensures SideIndexed(LoadTiles(f, d, svc), svc.rules)
  {
    var h := TilesHeader(d);
    assert FreshTiles(h);
    FreshSideIndices(f, d, h, svc);
  }
}
