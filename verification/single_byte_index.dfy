/**
 `generate_single_byte_index` of `src/index/gen_index.py`: read the index,
 build the smallest trie of the inverse map within 0x10000 LOWER entries,
 build the rejection bitmap, and emit FORWARD_TABLE, BACKWARD_TABLE_LOWER,
 BACKWARD_TABLE_UPPER and both `backward`s. What is proved is that whatever
 index the generator accepts, the emitted tables are safe to read for every
 code point, the trie `backward` is the reference encoder, and the
 unoptimized `backward` agrees with it.
 */
module SingleByteIndex {
  import opened Common
  import opened SingleByte
  import Trie

  /** The FORWARD_TABLE literal: `X` for a pointer without a code point. */
  function EmitForward(data: seq<Option<nat>>): (r: seq<int>)
    ensures |r| == |data|
  {
    seq(|data|, i requires 0 <= i < |data| => if data[i].None? then X else data[i].value)
  }

  /** The BACKWARD_TABLE_LOWER literal: 0 for an empty slot, and the byte
      `pointer + 0x80` for a slot holding a pointer. */
  function EmitLower(lower: seq<Option<nat>>): (r: seq<int>)
    ensures |r| == |lower|
  {
    seq(|lower|, i requires 0 <= i < |lower| => if lower[i].None? then 0 else lower[i].value + 0x80)
  }

  /** The emitted tables with the constants of the unoptimized `backward`:
      `maxvalue` and the bitmap with its shift. */
  datatype Emitted = Emitted(tables: Tables, maxvalue: nat, bitmap: Bitmap)

  /** What the generator promises about its output for an accepted index:
      FORWARD_TABLE lists exactly the entries; every read of `backward` is
      in bounds for every code point, and its answer is the reference
      encoder's; the tables fit their Rust types; and the constants of the
      unoptimized `backward` satisfy what that function needs. */
  ghost predicate Generated(entries: seq<(int, int)>, e: Emitted) {
    && Safe(e.tables)
    && ListsEntries(entries, e.tables.forward)
    && (forall c: nat :: Backward(e.tables, c) == Pointer(e.tables.forward, c))
    && Fits(e.tables)
    && UnoptimizedReady(e.tables.forward, e.maxvalue, e.bitmap)
  }

  /** FORWARD_TABLE holds the code point of every entry and nothing else,
      and no code point twice. */
  predicate ListsEntries(entries: seq<(int, int)>, forward: seq<int>) {
    && |forward| == 128
    && (forall i | 0 <= i < |entries| :: 0 <= entries[i].0 < 128 && forward[entries[i].0] == entries[i].1)
    && (forall k | 0 <= k < 128 && forward[k] != X :: (k, forward[k]) in entries)
    && (forall a, b | 0 <= a < b < 128 && forward[a] != X :: forward[a] != forward[b])
  }

  /** `triebits` is one the generator tries, LOWER stays under the limit
      and holds 0 or a byte 0x80..0xFF (so it fits `u8`), and every UPPER
      entry fits `u16`. */
  predicate Fits(t: Tables) {
    && t.triebits <= 20 && |t.lower| < 0x1_0000
    && (forall i | 0 <= i < |t.lower| :: t.lower[i] == 0 || 0x80 <= t.lower[i] <= 0xFF)
    && (forall k | 0 <= k < |t.upper| :: 0 <= t.upper[k] < 0x1_0000)
  }

  /** The requirements of `UnoptimizedBackward`. */
  predicate UnoptimizedReady(forward: seq<int>, maxvalue: nat, bitmap: Bitmap) {
    && |forward| == 128
    && maxvalue < X && Shr(maxvalue, bitmap.shift) < 32
    && forall i | 0 <= i < 128 && forward[i] != X ::
         0 <= forward[i] <= maxvalue && Shr(forward[i], bitmap.shift) in bitmap.bits
  }

  /** The generator: every failure of the reading assertion, of
      `make_minimal_trie` (an empty index, or no trie under the limit, which
      the tuple unpacking of `None` turns into an error) and of the bitmap
      is a failure here; otherwise the tables are emitted. */
  method GenerateSingleByteIndex(entries: seq<(int, int)>) returns (r: Result<Emitted>)
    ensures !ValidEntries(entries) ==> r.Failure?
    ensures r.Success? ==> Generated(entries, r.value)
  {
    var parsed := ReadIndex(entries);
    ReadIndexCorrect(entries);
    if parsed.Failure? {
      return Failure(parsed.error);
    }
    var p := parsed.value;
    var trie, _ := Trie.MakeMinimalTrie(p.invdata, 0x1_0000);
    if trie.Failure? {
      return Failure(trie.error);
    }
    if trie.value.None? {
      return Failure("cannot unpack None");
    }
    var tl := trie.value.value;
    var bitmap := MakeBitmap(p.data);
    if bitmap.Failure? {
      return Failure(bitmap.error);
    }
    var t := Tables(EmitForward(p.data), EmitLower(tl.lower), tl.upper, tl.triebits);
    var e := Emitted(t, MaxValue(p.data) as nat, bitmap.value);
    EmittedCorrect(entries, p, tl, e);
    return Success(e);
  }

  /** Under the reading assertion, FORWARD_TABLE and `invdata` are inverse
      to each other. */
  lemma ForwardInverse(entries: seq<(int, int)>, p: Parsed)
    requires ValidEntries(entries) && Holds(p, entries)
    ensures forall k | 0 <= k < 128 && p.data[k].Some? ::
      p.data[k].value < X && p.data[k].value in p.invdata && p.invdata[p.data[k].value] == k
    ensures forall v | v in p.invdata :: v < X && p.invdata[v] < 128 && p.data[p.invdata[v]] == Some(v)
  {
    forall k | 0 <= k < 128 && p.data[k].Some?
      ensures p.data[k].value < X && p.data[k].value in p.invdata && p.invdata[p.data[k].value] == k
    {
      var i :| 0 <= i < |entries| && entries[i] == (k, p.data[k].value as int);
    }
    forall v | v in p.invdata
      ensures v < X && p.invdata[v] < 128 && p.data[p.invdata[v]] == Some(v)
    {
      var i :| 0 <= i < |entries| && entries[i] == (p.invdata[v] as int, v as int);
    }
  }

  lemma EmittedCorrect(entries: seq<(int, int)>, p: Parsed, tl: Trie.TwoLevel, e: Emitted)
    requires ValidEntries(entries) && Holds(p, entries)
    requires Trie.Encodes(p.invdata, tl) && tl.triebits <= 20 && |tl.lower| < 0x1_0000
    requires MakeBitmap(p.data).Success? && e.bitmap == MakeBitmap(p.data).value && e.maxvalue == MaxValue(p.data)
    requires e.tables == Tables(EmitForward(p.data), EmitLower(tl.lower), tl.upper, tl.triebits)
    ensures Generated(entries, e)
  {
    var t := e.tables;
    ForwardInverse(entries, p);
    assert Safe(t);
    EmittedLists(entries, p, t.forward);
    forall c: nat
      ensures Backward(t, c) == Pointer(t.forward, c)
    {
      BackwardAt(p, tl, t, c);
    }
    EmittedFits(p, tl, t);
    EmittedReady(p, e);
  }

  lemma EmittedLists(entries: seq<(int, int)>, p: Parsed, forward: seq<int>)
    requires Holds(p, entries) && forward == EmitForward(p.data)
    requires forall k | 0 <= k < 128 && p.data[k].Some? ::
      p.data[k].value < X && p.data[k].value in p.invdata && p.invdata[p.data[k].value] == k
    ensures ListsEntries(entries, forward)
  {
    forall i | 0 <= i < |entries|
      ensures 0 <= entries[i].0 < 128 && forward[entries[i].0] == entries[i].1
    {
      assert p.data[entries[i].0] == Some(entries[i].1);
    }
    forall a, b | 0 <= a < b < 128 && forward[a] != X
      ensures forward[a] != forward[b]
    {
      assert p.data[a].Some?;
      if p.data[b].Some? {
        assert p.invdata[p.data[a].value] == a;
      }
    }
  }

  lemma EmittedFits(p: Parsed, tl: Trie.TwoLevel, t: Tables)
    requires |p.data| == 128 && Trie.Encodes(p.invdata, tl) && tl.triebits <= 20 && |tl.lower| < 0x1_0000
    requires forall v | v in p.invdata :: v < X && p.invdata[v] < 128 && p.data[p.invdata[v]] == Some(v)
    requires t == Tables(EmitForward(p.data), EmitLower(tl.lower), tl.upper, tl.triebits)
    ensures Fits(t)
  {
    forall i | 0 <= i < |t.lower|
      ensures t.lower[i] == 0 || 0x80 <= t.lower[i] <= 0xFF
    {
      if tl.lower[i].Some? {
        assert tl.lower[i].value in p.invdata.Values;
      }
    }
    forall k | 0 <= k < |t.upper|
      ensures 0 <= t.upper[k] < 0x1_0000
    {
      assert tl.upper[k] + Pow2(tl.triebits) <= |tl.lower|;
    }
  }

  lemma EmittedReady(p: Parsed, e: Emitted)
    requires |p.data| == 128
    requires forall k | 0 <= k < 128 && p.data[k].Some? :: p.data[k].value < X
    requires MakeBitmap(p.data).Success? && e.bitmap == MakeBitmap(p.data).value && e.maxvalue == MaxValue(p.data)
    requires e.tables.forward == EmitForward(p.data)
    ensures UnoptimizedReady(e.tables.forward, e.maxvalue, e.bitmap)
  {
    MakeBitmapCorrect(p.data);
    forall i | 0 <= i < 128 && e.tables.forward[i] != X
      ensures 0 <= e.tables.forward[i] <= e.maxvalue && Shr(e.tables.forward[i], e.bitmap.shift) in e.bitmap.bits
    {
      assert p.data[i].Some?;
    }
    var k :| 0 <= k < 128 && p.data[k] == Some(e.maxvalue);
  }

  /** The trie `backward` of one code point is the reference encoder's
      answer: the trie looks up `invdata`, whose value for a code point is
      its only pointer. */
  lemma BackwardAt(p: Parsed, tl: Trie.TwoLevel, t: Tables, c: nat)
    requires |p.data| == 128 && Trie.Encodes(p.invdata, tl) && Safe(t)
    requires t == Tables(EmitForward(p.data), EmitLower(tl.lower), tl.upper, tl.triebits)
    requires forall k | 0 <= k < 128 && p.data[k].Some? ::
      p.data[k].value < X && p.data[k].value in p.invdata && p.invdata[p.data[k].value] == k
    requires forall v | v in p.invdata :: v < X && p.invdata[v] < 128 && p.data[p.invdata[v]] == Some(v)
    ensures Backward(t, c) == Pointer(t.forward, c)
  {
    assert Trie.Lookup(tl, c) == Trie.Get(p.invdata, c);
    assert Backward(t, c) == if c in p.invdata then p.invdata[c] + 0x80 else 0;
    if c in p.invdata {
      var k := p.invdata[c];
      assert t.forward[k] == c;
      assert FirstIndex(t.forward, c) == k by {
        var i := FirstIndex(t.forward, c);
        assert i <= k;
        assert p.data[i].Some? && p.data[i].value == c;
      }
    }
  }

  /** An accepted index round-trips: `backward(forward(b)) == b` for every
      byte with a code point, and a non-zero `backward` names a byte whose
      code point is the query. */
  lemma GeneratedRoundTrips(entries: seq<(int, int)>, e: Emitted)
    requires Generated(entries, e)
    ensures RoundTrips(e.tables) && ConverseHolds(e.tables)
  {
    var t := e.tables;
    forall b | 0x80 <= b <= 0xFF && Forward(t, b) != X
      ensures Backward(t, Forward(t, b)) == b
    {
      var c := Forward(t, b);
      assert Pointer(t.forward, c) == b by {
        var r := Pointer(t.forward, c);
        assert r != 0 && t.forward[r - 0x80] == c;
      }
    }
  }

  /** For every `u32` the unoptimized `backward` gives the same byte as the
      trie `backward`. */
  method BackwardsAgree(entries: seq<(int, int)>, e: Emitted, code: nat) returns (r: int)
    requires Generated(entries, e) && code < U32_LIMIT
    ensures r == Backward(e.tables, code)
  {
    r := UnoptimizedBackward(e.tables.forward, e.maxvalue, e.bitmap, code);
  }
}
