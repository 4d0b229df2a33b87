/**
 The single-byte index as the generator emits it (`src/index/gen_index.py`,
 `generate_single_byte_index`): a 128-entry FORWARD_TABLE read by `forward`,
 and a two-level trie (BACKWARD_TABLE_UPPER, BACKWARD_TABLE_LOWER) read by
 `backward`; also the unoptimized `backward` that the generator emits for the
 `no-optimized-legacy-encoding` feature, with its rejection bitmap, and the
 checks the generator makes while reading the index.

 The reference both backwards are measured against is the single-byte
 encoder of the WHATWG Encoding Standard (section 9.2): the byte for a code
 point is 0x80 plus the first pointer whose code point it is.
 */
module SingleByte {
  import opened Common

  /** The emitted tables of one single-byte index; `triebits` is the shift
      of `backward` (5 in every emitted file) and `2^triebits - 1` its mask. */
  datatype Tables = Tables(forward: seq<int>, lower: seq<int>, upper: seq<int>, triebits: nat)

  /** What keeps every read of `forward` and `backward` in bounds: a full
      FORWARD_TABLE of `u16`s, and every block the upper table points at
      lying inside LOWER (offset 0, used for buckets past UPPER, included). */
  predicate Safe(t: Tables) {
    && |t.forward| == 128
    && (forall i | 0 <= i < 128 :: 0 <= t.forward[i] <= X)
    && Pow2(t.triebits) <= |t.lower|
    && (forall k | 0 <= k < |t.upper| :: 0 <= t.upper[k] && t.upper[k] + Pow2(t.triebits) <= |t.lower|)
  }

  /** `forward(code: u8)`: defined for the bytes 0x80..0xFF only, since
      `code - 0x80` underflows below 0x80. */
  function Forward(t: Tables, code: int): (r: int)
    requires |t.forward| == 128 && 0x80 <= code <= 0xFF
    ensures r != X ==> 0x80 <= Pointer(t.forward, r) <= code && t.forward[Pointer(t.forward, r) - 0x80] == r
  {
    t.forward[code - 0x80]
  }

  /** The block offset `backward` reads for `code`: the upper entry of the
      bucket `code >> triebits` when there is one, otherwise 0. */
  function Base(t: Tables, code: nat): (base: nat)
    requires Safe(t)
    ensures base + Pow2(t.triebits) <= |t.lower|
    ensures Shr(code, t.triebits) >= |t.upper| ==> base == 0
  {
    var offset := Shr(code, t.triebits);
    if offset < |t.upper| then t.upper[offset] else 0
  }

  /** `backward(code: u32)`: `LOWER[base + (code & mask)]`. */
  function Backward(t: Tables, code: nat): (r: int)
    requires Safe(t)
    ensures r in t.lower[Base(t, code)..Base(t, code) + Pow2(t.triebits)]
  {
    ShrMask(code, t.triebits);
    t.lower[Base(t, code) + Mask(code, t.triebits)]
  }

  /** Index of the first occurrence of `x` in `s`, or `|s|` if there is none. */
  function FirstIndex(s: seq<int>, x: int): (r: nat)
    ensures r <= |s|
    ensures r < |s| ==> s[r] == x
    ensures forall j | 0 <= j < r :: s[j] != x
  {
    if |s| == 0 then 0
    else if s[0] == x then 0
    else 1 + FirstIndex(s[1..], x)
  }

  /** The reference encoder: 0x80 plus the first pointer of `code`, or 0 when
      `code` is not in the index (`X` is never a code point). */
  function Pointer(forward: seq<int>, code: int): (r: int)
    ensures r == 0 <==> code == X || code !in forward
    ensures r != 0 ==> 0x80 <= r < 0x80 + |forward| && forward[r - 0x80] == code
    ensures r != 0 ==> forall j | 0 <= j < r - 0x80 :: forward[j] != code
  {
    if code == X then 0
    else
      var i := FirstIndex(forward, code);
      if i < |forward| then 0x80 + i else 0
  }

  /** Every byte with a code point is found again by `backward`. */
  predicate RoundTrips(t: Tables)
    requires Safe(t)
  {
    forall b | 0x80 <= b <= 0xFF && Forward(t, b) != X :: Backward(t, Forward(t, b)) == b
  }

  /** `backward` only answers with a byte whose code point is the query. */
  ghost predicate ConverseHolds(t: Tables)
    requires Safe(t)
  {
    forall c: nat ::
      Backward(t, c) != 0 ==> c != X && 0x80 <= Backward(t, c) <= 0xFF && Forward(t, Backward(t, c)) == c
  }

  /** The round trip makes `forward` injective on the bytes with a code point. */
  lemma RoundTripInjective(t: Tables)
    requires Safe(t) && RoundTrips(t)
    ensures forall a, b | 0x80 <= a <= 0xFF && 0x80 <= b <= 0xFF && Forward(t, a) != X ::
      Forward(t, a) == Forward(t, b) ==> a == b
  {
    forall a, b | 0x80 <= a <= 0xFF && 0x80 <= b <= 0xFF && Forward(t, a) != X && Forward(t, a) == Forward(t, b)
      ensures a == b
    {
      assert Backward(t, Forward(t, a)) == a;
      assert Backward(t, Forward(t, b)) == b;
    }
  }

  /** Round trip and converse together pin `backward` down to the reference
      encoder on every code point. */
  lemma {:induction false} BackwardIsPointer(t: Tables)
    requires Safe(t) && RoundTrips(t) && ConverseHolds(t)
    ensures forall c: nat :: Backward(t, c) == Pointer(t.forward, c)
  {
    forall c: nat
      ensures Backward(t, c) == Pointer(t.forward, c)
    {
      var i := FirstIndex(t.forward, c);
      if c != X && i < 128 {
        assert Forward(t, 0x80 + i) == c;
      } else if Backward(t, c) != 0 {
        assert false;
      }
    }
  }

  // ---------------------------------------------------------------------
  // Reading the index (`gen_index.py:239-246`)

  /** The pointer array `data` and its inverse dictionary `invdata`. */
  datatype Parsed = Parsed(data: seq<Option<nat>>, invdata: map<nat, nat>)

  /** The generator's assertion on the index: pointers in [0, 128), code
      points in [0, 0xFFFF), and no pointer or code point listed twice. */
  predicate ValidEntries(entries: seq<(int, int)>) {
    && (forall i | 0 <= i < |entries| :: 0 <= entries[i].0 < 128 && 0 <= entries[i].1 < X)
    && (forall i, j | 0 <= i < j < |entries| :: entries[i].0 != entries[j].0 && entries[i].1 != entries[j].1)
  }

  /** The reading loop: each `(key, value)` passes the assertion and then
      sets `data[key] = value` and `invdata[value] = key`. */
  function ReadIndex(entries: seq<(int, int)>): (r: Result<Parsed>)
    ensures r.Success? ==> |r.value.data| == 128
  {
    if |entries| == 0 then Success(Parsed(seq(128, _ => None), map[]))
    else
      var prefix := ReadIndex(entries[..|entries| - 1]);
      if prefix.Failure? then prefix
      else
        var (key, value) := entries[|entries| - 1];
        var p := prefix.value;
        if !(0 <= key < 128 && 0 <= value < X && p.data[key].None? && value !in p.invdata) then
          Failure("invalid single-byte index entry")
        else
          Success(Parsed(p.data[key := Some(value)], p.invdata[value := key]))
  }

  /** `data` and `invdata` hold exactly the listed pairs. */
  predicate Holds(p: Parsed, entries: seq<(int, int)>) {
    && |p.data| == 128
    && (forall i | 0 <= i < |entries| ::
          && 0 <= entries[i].0 < 128 && p.data[entries[i].0] == Some(entries[i].1)
          && entries[i].1 in p.invdata && p.invdata[entries[i].1] == entries[i].0)
    && (forall k | 0 <= k < 128 && p.data[k].Some? :: (k, p.data[k].value as int) in entries)
    && (forall v | v in p.invdata :: (p.invdata[v] as int, v as int) in entries)
  }

  /** Reading succeeds exactly on an index that passes the assertion, and
      then `invdata` is the exact inverse of `data`. */
  lemma {:induction false} ReadIndexCorrect(entries: seq<(int, int)>)
    ensures ReadIndex(entries).Success? <==> ValidEntries(entries)
    ensures ReadIndex(entries).Success? ==> Holds(ReadIndex(entries).value, entries)
    decreases |entries|
  {
    if |entries| > 0 {
      var init := entries[..|entries| - 1];
      var last := entries[|entries| - 1];
      assert entries == init + [last];
      ReadIndexCorrect(init);
      ValidSnoc(init, last);
      var prefix := ReadIndex(init);
      if prefix.Success? && 0 <= last.0 < 128 && 0 <= last.1 < X {
        Fresh(prefix.value, init, last);
        if ReadIndex(entries).Success? {
          HoldsSnoc(prefix.value, init, last);
        }
      }
    }
  }

  lemma ValidSnoc(init: seq<(int, int)>, last: (int, int))
    ensures ValidEntries(init + [last]) <==>
      && ValidEntries(init)
      && 0 <= last.0 < 128 && 0 <= last.1 < X
      && (forall i | 0 <= i < |init| :: init[i].0 != last.0 && init[i].1 != last.1)
  {
    var e := init + [last];
    assert forall i | 0 <= i < |init| :: e[i] == init[i];
    assert e[|init|] == last;
  }

  /** While reading, a free slot of `data` or `invdata` is one no earlier
      entry has used. */
  lemma Fresh(p: Parsed, init: seq<(int, int)>, last: (int, int))
    requires Holds(p, init) && 0 <= last.0 < 128 && 0 <= last.1 < X
    ensures p.data[last.0].None? <==> forall i | 0 <= i < |init| :: init[i].0 != last.0
    ensures last.1 !in p.invdata <==> forall i | 0 <= i < |init| :: init[i].1 != last.1
  {
    if p.data[last.0].Some? {
      var i :| 0 <= i < |init| && init[i] == (last.0, p.data[last.0].value as int);
    }
    if last.1 in p.invdata {
      var i :| 0 <= i < |init| && init[i] == (p.invdata[last.1] as int, last.1);
    }
  }

  lemma HoldsSnoc(p: Parsed, init: seq<(int, int)>, last: (int, int))
    requires Holds(p, init) && 0 <= last.0 < 128 && 0 <= last.1 < X
    requires p.data[last.0].None? && last.1 !in p.invdata
    ensures Holds(Parsed(p.data[last.0 := Some(last.1)], p.invdata[last.1 := last.0]), init + [last])
  {
    var q := Parsed(p.data[last.0 := Some(last.1)], p.invdata[last.1 := last.0]);
    var e := init + [last];
    assert forall i | 0 <= i < |init| :: e[i] == init[i];
    forall i | 0 <= i < |e|
      ensures 0 <= e[i].0 < 128 && q.data[e[i].0] == Some(e[i].1)
      ensures e[i].1 in q.invdata && q.invdata[e[i].1] == e[i].0
    {
      if i < |init| {
        assert p.data[init[i].0] == Some(init[i].1);
        assert init[i].1 in p.invdata;
      }
    }
    forall k | 0 <= k < 128 && q.data[k].Some?
      ensures (k, q.data[k].value as int) in e
    {
      if k != last.0 {
        assert (k, p.data[k].value as int) in init;
      }
    }
    forall v | v in q.invdata
      ensures (q.invdata[v] as int, v as int) in e
    {
      if v != last.1 {
        assert (p.invdata[v] as int, v as int) in init;
      }
    }
  }

  // ---------------------------------------------------------------------
  // The rejection bitmap and the unoptimized `backward`
  // (`gen_index.py:251-259,316-323`)

  /** `max(invdata)`: the largest code point of `data`, or -1 when there is
      none (where Python's `max` raises). */
  function MaxValue(data: seq<Option<nat>>): (m: int)
    ensures m >= -1
    ensures forall k | 0 <= k < |data| && data[k].Some? :: data[k].value <= m
    ensures m >= 0 ==> exists k | 0 <= k < |data| :: data[k] == Some(m as nat)
    ensures m == -1 ==> forall k | 0 <= k < |data| :: data[k].None?
  {
    if |data| == 0 then -1
    else
      var m := MaxValue(data[..|data| - 1]);
      match data[|data| - 1]
      case None => m
      case Some(v) => if v > m then v else m
  }

  /** The `while 2**bitlen <= max` loop: the least `n` with `m < 2^n`. */
  function BitLength(m: nat): (n: nat)
    ensures m < Pow2(n)
    ensures n > 0 ==> Pow2(n - 1) <= m
  {
    if m == 0 then 0 else 1 + BitLength(m / 2)
  }

  /** The bitmap as the set of its set bit positions, with its shift. */
  datatype Bitmap = Bitmap(bits: set<nat>, shift: nat)

  /** Bit `v >> shift` is set for every code point `v`, where the shift keeps
      the top five bits of the largest code point. The generator's assertion
      `2**16 <= bitmap < 2**32` says that some set bit is at position 16 or
      above and none at 32 or above. */
  function MakeBitmap(data: seq<Option<nat>>): (r: Result<Bitmap>)
    ensures r.Success? ==> forall k | 0 <= k < |data| && data[k].Some? :: Shr(data[k].value, r.value.shift) in r.value.bits
    ensures r.Success? ==> forall p | p in r.value.bits :: p < 32
  {
    var m := MaxValue(data);
    if m < 0 then Failure("max() of an empty index")
    else
      var bitlen := BitLength(m);
      if bitlen < 5 then Failure("negative shift count")
      else
        var shift := bitlen - 5;
        var bits := set k | 0 <= k < |data| && data[k].Some? :: Shr(data[k].value, shift);
        if !((exists p | p in bits :: p >= 16) && (forall p | p in bits :: p < 32)) then
          Failure("bitmap out of range")
        else
          Success(Bitmap(bits, shift))
  }

  /** `x >> s` is below `c` exactly when `x` is below `c << s`. */
  lemma ShrBelow(x: nat, s: nat, c: nat)
    ensures Shr(x, s) < c <==> x < c * Pow2(s)
  {
    ShrMask(x, s);
    var q, P := Shr(x, s), Pow2(s);
    if q < c {
      MulMono(q + 1, c, P);
    } else {
      MulMono(c, q, P);
    }
  }

  /** The bitmap is built whenever the largest code point is at least 16; its
      range assertion then never fails, every code point's bit is set, and
      every code up to the largest code point shifts to a position below 32. */
  lemma {:induction false} MakeBitmapCorrect(data: seq<Option<nat>>)
    ensures MakeBitmap(data).Success? <==> MaxValue(data) >= 16
    ensures MakeBitmap(data).Success? ==>
      && Shr(MaxValue(data), MakeBitmap(data).value.shift) < 32
      && forall k | 0 <= k < |data| && data[k].Some? ::
           Shr(data[k].value, MakeBitmap(data).value.shift) in MakeBitmap(data).value.bits
  {
    var m := MaxValue(data);
    if m >= 0 {
      var n := BitLength(m);
      if m >= 16 {
        Pow2Monotone(4, n);
        if n <= 4 {
          Pow2Monotone(n, 4);
          assert false;
        }
        var shift := n - 5;
        Pow2Add(5, shift);
        var bits := set k | 0 <= k < |data| && data[k].Some? :: Shr(data[k].value, shift);
        ShrBelow(m, shift, 32);
        var k :| 0 <= k < |data| && data[k] == Some(m as nat);
        assert Shr(m, shift) in bits;
        Pow2Add(4, shift);
        ShrBelow(m, shift, 16);
        forall p | p in bits
          ensures p < 32
        {
          var j :| 0 <= j < |data| && data[j].Some? && p == Shr(data[j].value, shift);
          ShrBelow(data[j].value, shift, 32);
        }
      } else if n >= 5 {
        Pow2Monotone(4, n - 1);
      }
    }
  }

  /** The `backward` emitted for the `no-optimized-legacy-encoding` feature.
      `code > maxvalue` is tested first, and that test is what keeps the
      `u32` shift of the bitmap below 32. The bitmap test is the membership
      of bit `code >> shift`, and `code as u16` is the cast. The linear
      search then finds the same byte as the reference encoder. */
  method UnoptimizedBackward(forward: seq<int>, maxvalue: nat, bitmap: Bitmap, code: nat) returns (r: int)
    requires |forward| == 128 && code < U32_LIMIT
    requires maxvalue < X && Shr(maxvalue, bitmap.shift) < 32
    requires forall i | 0 <= i < 128 && forward[i] != X ::
      0 <= forward[i] <= maxvalue && Shr(forward[i], bitmap.shift) in bitmap.bits
    ensures r == Pointer(forward, code)
  {
    if code > maxvalue {
      return 0;
    }
    var amount := Shr(code, bitmap.shift);
    assert amount < 32 by {
      ShrBelow(maxvalue, bitmap.shift, 32);
      ShrBelow(code, bitmap.shift, 32);
    }
    if amount !in bitmap.bits {
      return 0;
    }
    var code16 := code % 0x1_0000;
    var i := 0;
    while i < 0x80
      invariant 0 <= i <= 0x80
      invariant forall j | 0 <= j < i :: forward[j] != code16
    {
      if forward[i] == code16 {
        return 0x80 + i;
      }
      i := i + 1;
    }
    return 0;
  }
}
