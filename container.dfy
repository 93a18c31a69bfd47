/**
 * The data-file container that map items are stored in, seen from the map
 * code: a writer that appends typed items and byte blocks, and a reader that
 * gives back the items of one type in the order they were added and the
 * blocks by index.  Compression, the file header and the on-disk layout are
 * not modelled.
 */
module Container {

  type byte = b: int | 0 <= b < 0x100
  type int32 = v: int | -0x8000_0000 <= v < 0x8000_0000

  datatype Option<T> = None | Some(value: T)

  /** The map item kinds.  The numeric ids of the map format are not modelled, only their distinctness. */
  datatype ItemType =
    | VersionType | InfoType | ImageType | EnvelopeType | GroupType | LayerType
    | EnvPointsType | SoundType | GroupExType | EnvPointsBezierType | AutoMapperConfigType

  /** An item: its type, its instance id and its payload, a record of 32-bit words. */
  datatype Item = Item(typ: ItemType, id: int, data: seq<int>)

  /** Word `k` of an item payload; a word past the end of the payload reads as 0. */
  function Word(ws: seq<int>, k: int): int
  {
    if 0 <= k < |ws| then ws[k] else 0
  }

  /** The items of type `t`, in the order they were added. */
  function OfType(items: seq<Item>, t: ItemType): (r: seq<Item>)
    ensures |r| <= |items|
    ensures forall k :: 0 <= k < |r| ==> r[k].typ == t && r[k] in items
    ensures (forall k :: 0 <= k < |items| ==> items[k].typ != t) ==> r == []
  {
    if items == [] then []
    else
      var last := items[|items| - 1];
      OfType(items[..|items| - 1], t) + (if last.typ == t then [last] else [])
  }

  lemma {:induction false} OfTypeAppend(a: seq<Item>, b: seq<Item>, t: ItemType)
    ensures OfType(a + b, t) == OfType(a, t) + OfType(b, t)
    decreases |b|
  {
    if b == [] {
      assert a + b == a;
    } else {
      var b' := b[..|b| - 1];
      assert (a + b)[..|a + b| - 1] == a + b';
      OfTypeAppend(a, b', t);
    }
  }

  /** The first item of type `t` with instance id `id`, as the reader's FindItem. */
  function FindItem(items: seq<Item>, t: ItemType, id: int): (r: Option<Item>)
    ensures r.Some? ==> r.value in items && r.value.typ == t && r.value.id == id
    ensures r.None? <==> forall k :: 0 <= k < |items| ==> !(items[k].typ == t && items[k].id == id)
  {
    if items == [] then None
    else if items[0].typ == t && items[0].id == id then Some(items[0])
    else
      var r := FindItem(items[1..], t, id);
      assert forall k :: 1 <= k < |items| ==> items[k] == items[1..][k - 1];
      r
  }

  // ---------------------------------------------------------------------
  // 32-bit words in byte blocks (AddDataSwapped / GetDataSwapped): each word
  // is stored as four bytes, least significant first.

  const TWO32: int := 0x1_0000_0000

  function EncodeInt32(v: int32): (b: seq<byte>)
    ensures |b| == 4
  {
    var u := if v < 0 then v + TWO32 else v;
    var q1 := u / 0x100;
    var q2 := q1 / 0x100;
    [u % 0x100, q1 % 0x100, q2 % 0x100, q2 / 0x100]
  }

  function DecodeInt32(b: seq<byte>): int32
    requires |b| == 4
  {
    var u: int := b[0] as int + 0x100 * (b[1] as int) + 0x1_0000 * (b[2] as int) + 0x100_0000 * (b[3] as int);
    if u >= 0x8000_0000 then u - TWO32 else u
  }

  lemma {:induction false} Int32RoundTrip(v: int32)
    ensures DecodeInt32(EncodeInt32(v)) == v
  {
    var u := if v < 0 then v + TWO32 else v;
    var q1 := u / 0x100;
    var q2 := q1 / 0x100;
    assert u == u % 0x100 + 0x100 * q1;
    assert q1 == q1 % 0x100 + 0x100 * q2;
    assert q2 == q2 % 0x100 + 0x100 * (q2 / 0x100);
    var b := EncodeInt32(v);
    assert b[0] as int + 0x100 * (b[1] as int) + 0x1_0000 * (b[2] as int) + 0x100_0000 * (b[3] as int) == u;
  }

  function EncodeWords(ws: seq<int32>): (b: seq<byte>)
    ensures |b| == 4 * |ws|
  {
    if ws == [] then [] else EncodeWords(ws[..|ws| - 1]) + EncodeInt32(ws[|ws| - 1])
  }

  /** The whole words of a block; trailing bytes that do not fill a word are ignored. */
  function DecodeWords(b: seq<byte>): (ws: seq<int32>)
    ensures |ws| == |b| / 4
    decreases |b|
  {
    if |b| < 4 then [] else [DecodeInt32(b[..4])] + DecodeWords(b[4..])
  }

  lemma {:induction false} DecodeWordsAppend(a: seq<byte>, v: int32)
    requires |a| % 4 == 0
    ensures DecodeWords(a + EncodeInt32(v)) == DecodeWords(a) + [v]
    decreases |a|
  {
    if |a| == 0 {
      assert a + EncodeInt32(v) == EncodeInt32(v);
      assert (a + EncodeInt32(v))[..4] == EncodeInt32(v);
      Int32RoundTrip(v);
    } else {
      assert (a + EncodeInt32(v))[..4] == a[..4];
      assert (a + EncodeInt32(v))[4..] == a[4..] + EncodeInt32(v);
      DecodeWordsAppend(a[4..], v);
    }
  }

  lemma {:induction false} WordsRoundTrip(ws: seq<int32>)
    ensures DecodeWords(EncodeWords(ws)) == ws
    decreases |ws|
  {
    if ws != [] {
      var pre := ws[..|ws| - 1];
      WordsRoundTrip(pre);
      DecodeWordsAppend(EncodeWords(pre), ws[|ws| - 1]);
    }
  }

  // ---------------------------------------------------------------------
  // Writer and reader

  /** CDataFileWriter as the map code uses it: items and data blocks are appended in order. */
  class Writer {
    var items: seq<Item>
    var blocks: seq<seq<byte>>

    constructor Open()
      ensures items == [] && blocks == []
    {
      items := [];
      blocks := [];
    }

    method AddItem(t: ItemType, id: int, data: seq<int>)
      modifies this
      ensures items == old(items) + [Item(t, id, data)]
      ensures blocks == old(blocks)
    {
      items := items + [Item(t, id, data)];
    }

    /** Appends a data block and returns its index. */
    method AddData(data: seq<byte>) returns (index: int)
      modifies this
      ensures index == |old(blocks)|
      ensures blocks == old(blocks) + [data]
      ensures items == old(items)
    {
      index := |blocks|;
      blocks := blocks + [data];
    }

    /** Appends a block of 32-bit words in the container's fixed byte order and returns its index. */
    method AddDataSwapped(words: seq<int32>) returns (index: int)
      modifies this
      ensures index == |old(blocks)|
      ensures blocks == old(blocks) + [EncodeWords(words)]
      ensures items == old(items)
    {
      index := |blocks|;
      blocks := blocks + [EncodeWords(words)];
    }
  }

  /** CDataFileReader: the finished file's items and data blocks. */
  datatype DataFile = DataFile(items: seq<Item>, blocks: seq<seq<byte>>)
  {
    /** The items of one type, as GetType followed by GetItem over the returned range. */
    function GetType(t: ItemType): seq<Item>
    {
      OfType(items, t)
    }

    /** A data block; an index that names no block (such as the absent reference -1) gives no data. */
    function GetData(index: int): seq<byte>
    {
      if 0 <= index < |blocks| then blocks[index] else []
    }

    function GetDataSize(index: int): nat
    {
      |GetData(index)|
    }

    function GetDataSwapped(index: int): seq<int32>
    {
      DecodeWords(GetData(index))
    }
  }
}
