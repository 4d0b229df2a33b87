/**
 Range indexes (`generate_multi_byte_range_lbound_index`,
 `src/index/gen_index.py:804-906`): an index given as the lower bounds of
 ranges, `(pointer, code point)` pairs, in which every pointer maps to the
 code point of the last range that starts at or below it, shifted by its
 distance from that start. It serves the "index gb18030 ranges" of the
 WHATWG Encoding Standard (section 5, Indexes). The emitted Rust looks the
 range up with an unrolled binary search over the range starts.
 */
module RangeIndex {
  import opened Common

  /** `0xffffffff`, the answer for a pointer or code point with no mapping. */
  const NOT_FOUND: nat := 0xFFFF_FFFF

  predicate Sorted(s: seq<nat>) {
    forall i, j | 0 <= i <= j < |s| :: s[i] <= s[j]
  }

  /** Python's tuple order. */
  predicate PairLeq(a: (nat, nat), b: (nat, nat)) {
    a.0 < b.0 || (a.0 == b.0 && a.1 <= b.1)
  }

  /** `data == sorted(data)`: the pairs do not decrease in tuple order. */
  predicate PairsSorted(data: seq<(nat, nat)>) {
    forall i | 0 <= i < |data| - 1 :: PairLeq(data[i], data[i + 1])
  }

  // ---------------------------------------------------------------------
  // The reference: the last range start at or below a code

  /** The index of the last entry of `fromtab` that is at most `code`; on a
      sorted table, the entries at most `code` are exactly the first
      `LastAtMost + 1`. */
  function LastAtMost(fromtab: seq<nat>, code: nat): (i: nat)
    requires |fromtab| > 0 && fromtab[0] <= code
    ensures i < |fromtab| && fromtab[i] <= code
    ensures forall j | i < j < |fromtab| :: fromtab[j] > code
    ensures Sorted(fromtab) ==> forall j | 0 <= j < |fromtab| :: fromtab[j] <= code <==> j <= i
    decreases |fromtab|
  {
    if fromtab[|fromtab| - 1] <= code then |fromtab| - 1
    else LastAtMost(fromtab[..|fromtab| - 1], code)
  }

  /** `(code - fromtab[i]) + totab[i]` for the last range start `i` at or
      below `code`, in `u32` arithmetic. */
  function Lookup(fromtab: seq<nat>, totab: seq<nat>, code: nat): (r: nat)
    requires |fromtab| == |totab| > 0 && fromtab[0] <= code
    ensures r < U32_LIMIT
    ensures code - fromtab[LastAtMost(fromtab, code)] + totab[LastAtMost(fromtab, code)] < U32_LIMIT ==>
      totab[LastAtMost(fromtab, code)] <= r
  {
    var i := LastAtMost(fromtab, code);
    (code - fromtab[i] + totab[i]) % U32_LIMIT
  }

  // ---------------------------------------------------------------------
  // The emitted `search`

  /** `maxlog2`: the largest `m` with `2^m <= n`. */
  method MaxLog2(n: nat) returns (m: nat)
    requires n >= 1
    ensures Pow2(m) <= n < Pow2(m + 1)
  {
    m := 0;
    while Pow2(m + 1) <= n
      invariant Pow2(m) <= n
      decreases n - Pow2(m)
    {
      m := m + 1;
    }
  }

  /** The unrolled binary search: a first probe at `2^maxlog2 - 1` that
      jumps to the last `2^maxlog2` entries, then probes halving the step.
      It never indexes outside the tables (the `(0, 0)` entry guarantees a
      final index of at least 1), and on a sorted `fromtab` it finds the
      last range start at or below `code`. */
  method Search(fromtab: seq<nat>, totab: seq<nat>, code: nat) returns (r: nat)
    requires |fromtab| == |totab| > 0 && fromtab[0] == 0
    ensures r < U32_LIMIT
    ensures Sorted(fromtab) ==> r == Lookup(fromtab, totab, code)
  {
    var n := |fromtab|;
    var m := MaxLog2(n);
    var i: nat := if code >= fromtab[Pow2(m) - 1] then n - Pow2(m) + 1 else 0;
    if Sorted(fromtab) {
      FirstProbe(fromtab, code, m);
    }
    i := Narrow(fromtab, code, i, m);
    r := (code - fromtab[i - 1] + totab[i - 1]) % U32_LIMIT;
  }

  /** The probes after the first: starting from a window of `2^k - 1`
      candidate counts at `i`, each probe halves the window. The final
      index is at least 1, and on a sorted table it is the count of
      entries at most `code` whenever that count lay in the first window. */
  method Narrow(fromtab: seq<nat>, code: nat, i0: nat, k0: nat) returns (i: nat)
    requires |fromtab| > 0 && fromtab[0] <= code
    requires i0 + Pow2(k0) - 1 <= |fromtab| && (i0 >= 1 || k0 >= 1)
    ensures 1 <= i <= |fromtab|
    ensures Sorted(fromtab) && i0 <= LastAtMost(fromtab, code) + 1 <= i0 + Pow2(k0) - 1 ==>
      i == LastAtMost(fromtab, code) + 1
  {
    ghost var within := Sorted(fromtab) && i0 <= LastAtMost(fromtab, code) + 1 <= i0 + Pow2(k0) - 1;
    ghost var c := LastAtMost(fromtab, code) + 1;
    i := i0;
    var k := k0;
    while k > 0
      invariant i + Pow2(k) - 1 <= |fromtab|
      invariant i >= 1 || k >= 1
      invariant within ==> Sorted(fromtab) && i <= c <= i + Pow2(k) - 1
    {
      k := k - 1;
      assert Pow2(k + 1) == 2 * Pow2(k);
      if within {
        Halve(fromtab, code, i, Pow2(k));
      }
      if code >= fromtab[i + Pow2(k) - 1] {
        i := i + Pow2(k);
      }
    }
    assert Pow2(k) == 1;
  }

  /** The first probe of a sorted table: entry `2^m - 1` is at most `code`
      exactly when at least `2^m` entries are, and then the count lies in
      the last `2^m` positions. */
  lemma FirstProbe(fromtab: seq<nat>, code: nat, m: nat)
    requires Pow2(m) <= |fromtab| < Pow2(m + 1)
    requires Sorted(fromtab) && fromtab[0] <= code
    ensures fromtab[Pow2(m) - 1] <= code ==>
      |fromtab| - Pow2(m) + 1 <= LastAtMost(fromtab, code) + 1 <= |fromtab|
    ensures fromtab[Pow2(m) - 1] > code ==> LastAtMost(fromtab, code) + 1 <= Pow2(m) - 1
  {}

  /** One halving probe of a sorted table: when the count of entries at
      most `code` lies in `i .. i + 2h - 1`, probing entry `i + h - 1`
      tells which half it lies in. */
  lemma Halve(fromtab: seq<nat>, code: nat, i: nat, h: nat)
    requires Sorted(fromtab) && |fromtab| > 0 && fromtab[0] <= code
    requires h >= 1 && i + h - 1 < |fromtab|
    requires i <= LastAtMost(fromtab, code) + 1 <= i + 2 * h - 1
    ensures fromtab[i + h - 1] <= code ==> i + h <= LastAtMost(fromtab, code) + 1 <= i + h + h - 1
    ensures fromtab[i + h - 1] > code ==> i <= LastAtMost(fromtab, code) + 1 <= i + h - 1
  {}

  // ---------------------------------------------------------------------
  // The index and its emitted `forward` and `backward`

  /** The two emitted tables (`BACKWARD_TABLE` holds the pointers, the
      range starts of `forward`; `FORWARD_TABLE` the code points), the
      smallest pair read, and whether the index is gb18030's. */
  datatype RangeIndex = RangeIndex(keys: seq<nat>, values: seq<nat>, minkey: nat, minvalue: nat, gb18030: bool)

  /** What `search` needs of the tables: equal lengths, a `(0, 0)` first
      entry, and pointers in order. */
  predicate Ready(idx: RangeIndex) {
    && |idx.keys| == |idx.values| > 0
    && idx.keys[0] == 0 && idx.values[0] == 0
    && Sorted(idx.keys)
  }

  function Keys(data: seq<(nat, nat)>): (r: seq<nat>)
    ensures |r| == |data| && forall j | 0 <= j < |data| :: r[j] == data[j].0
  {
    seq(|data|, j requires 0 <= j < |data| => data[j].0)
  }

  function Values(data: seq<(nat, nat)>): (r: seq<nat>)
    ensures |r| == |data| && forall j | 0 <= j < |data| :: r[j] == data[j].1
  {
    seq(|data|, j requires 0 <= j < |data| => data[j].1)
  }

  /** The generator: the pairs must be there and sorted (`assert data and
      data == sorted(data)`); `(0, 0)` is put in front unless it is the
      first pair already. The tables hold the pairs read, in order, after
      that one extra entry. */
  function BuildRangeIndex(data: seq<(nat, nat)>, gb18030: bool): (r: Result<RangeIndex>)
    ensures r.Success? <==> |data| > 0 && PairsSorted(data)
    ensures r.Success? ==> Ready(r.value)
    ensures r.Success? ==> (r.value.minkey, r.value.minvalue) == data[0] && r.value.gb18030 == gb18030
    ensures r.Success? ==>
      && |data| <= |r.value.keys| <= |data| + 1
      && (|r.value.keys| == |data| <==> data[0] == (0, 0))
      && forall j | 0 <= j < |data| ::
           r.value.keys[j + |r.value.keys| - |data|] == data[j].0 &&
           r.value.values[j + |r.value.keys| - |data|] == data[j].1
  {
    if |data| == 0 || !PairsSorted(data) then Failure("assert data and data == sorted(data)")
    else
      var full := WithZero(data);
      KeysSorted(full);
      Success(RangeIndex(Keys(full), Values(full), data[0].0, data[0].1, gb18030))
  }

  /** The pairs with `(0, 0)` in front, unless they start with it: still
      sorted, with the pairs read after the one extra entry. */
  function WithZero(data: seq<(nat, nat)>): (r: seq<(nat, nat)>)
    requires |data| > 0 && PairsSorted(data)
    ensures |data| <= |r| <= |data| + 1 && r[0] == (0, 0)
    ensures |r| == |data| <==> data[0] == (0, 0)
    ensures forall j | 0 <= j < |data| :: r[j + |r| - |data|] == data[j]
    ensures PairsSorted(r)
  {
    if data[0] == (0, 0) then data
    else
      var r := [(0, 0)] + data;
      assert forall i | 1 <= i < |r| :: r[i] == data[i - 1];
      r
  }

  /** Pairs in tuple order have their first components in order. */
  lemma KeysSorted(data: seq<(nat, nat)>)
    requires PairsSorted(data)
    ensures Sorted(Keys(data))
  {
    forall i, j | 0 <= i <= j < |data|
      ensures data[i].0 <= data[j].0
    {
      KeysMonotone(data, i, j);
    }
  }

  lemma {:induction false} KeysMonotone(data: seq<(nat, nat)>, i: nat, j: nat)
    requires PairsSorted(data) && i <= j < |data|
    ensures data[i].0 <= data[j].0
    decreases j - i
  {
    if i < j {
      KeysMonotone(data, i + 1, j);
      assert PairLeq(data[i], data[i + 1]);
    }
  }

  /** The meaning of the emitted `forward`: no mapping below the smallest
      pointer read, gb18030's invalid pointers and its one singular
      mapping, and otherwise the range lookup. */
  function ForwardOf(idx: RangeIndex, code: nat): (r: nat)
    requires Ready(idx)
    ensures r < U32_LIMIT
  {
    if code < idx.minkey then NOT_FOUND
    else if Rejected(idx.gb18030, code) then NOT_FOUND
    else if idx.gb18030 && code == 7457 then 0xE7C7
    else Lookup(idx.keys, idx.values, code)
  }

  /** The meaning of the emitted `backward`. */
  function BackwardOf(idx: RangeIndex, code: nat): (r: nat)
    requires Ready(idx)
    ensures r < U32_LIMIT
  {
    if code < idx.minvalue then NOT_FOUND
    else if idx.gb18030 && code == 0xE7C7 then 7457
    else Lookup(idx.values, idx.keys, code)
  }

  /** The emitted `forward`: the guards, then `search` over the pointers. */
  method Forward(idx: RangeIndex, code: nat) returns (r: nat)
    requires Ready(idx)
    ensures r == ForwardOf(idx, code)
  {
    if code < idx.minkey {
      return NOT_FOUND;
    }
    if idx.gb18030 && ((code > 39419 && code < 189000) || code > 1237575) {
      return NOT_FOUND;
    }
    if idx.gb18030 && code == 7457 {
      return 0xE7C7;
    }
    r := Search(idx.keys, idx.values, code);
  }

  /** The emitted `backward`: `search` over the code points, which finds
      the right range only when the code points are in order too (the
      generator checks the order of the pointers only). */
  method Backward(idx: RangeIndex, code: nat) returns (r: nat)
    requires Ready(idx)
    ensures r < U32_LIMIT
    ensures Sorted(idx.values) ==> r == BackwardOf(idx, code)
  {
    if code < idx.minvalue {
      return NOT_FOUND;
    }
    if idx.gb18030 && code == 0xE7C7 {
      return 7457;
    }
    r := Search(idx.values, idx.keys, code);
  }

  // ---------------------------------------------------------------------
  // Properties

  /** gb18030: the pointers between 39419 and 189000 and those above
      1237575 have no code point, and pointer 7457 and U+E7C7 map to each
      other whatever the tables say. */
  lemma Gb18030Special(idx: RangeIndex, p: nat)
    requires Ready(idx) && idx.gb18030 && idx.minkey == 0 && idx.minvalue <= 0xE7C7
    ensures (39419 < p < 189000 || p > 1237575) ==> ForwardOf(idx, p) == NOT_FOUND
    ensures ForwardOf(idx, 7457) == 0xE7C7 && BackwardOf(idx, 0xE7C7) == 7457
  {}

  /** The pointers `forward` turns away before searching: gb18030's invalid
      regions. */
  predicate Rejected(gb18030: bool, p: nat) {
    gb18030 && ((39419 < p < 189000) || p > 1237575)
  }

  /** Pointer `p` lies in the `j`-th range read: at or above its start and
      below the next range's start, and it is a `u32`. */
  predicate InRange(data: seq<(nat, nat)>, j: nat, p: nat) {
    && j < |data| && data[j].0 <= p < U32_LIMIT
    && (j + 1 < |data| ==> p < data[j + 1].0)
  }

  /** The code point range `j` gives `p`: its offset from the range start,
      added to the range's first code point. */
  function Image(data: seq<(nat, nat)>, j: nat, p: nat): int
    requires j < |data|
  {
    p - data[j].0 + data[j].1
  }

  /** The first code point of the next range, or `2^32` after the last. */
  function Bound(data: seq<(nat, nat)>, j: nat): nat
    requires j < |data|
  {
    if j + 1 < |data| then data[j + 1].1 else U32_LIMIT
  }

  /** Ranges as an index of this kind lists them: `u32` code points,
      pointers and code points strictly increasing from pair to pair, and every pointer `forward`
      accepts mapping below the next range's first code point. The
      generator's own assertion asks only for tuple order. For gb18030,
      U+E7C7 is reached only through the singular mapping of pointer 7457,
      and it is not below the smallest code point read. Two cases that
      break plain well-formedness are allowed: the `(0, 0)` entry put in
      front, which is not one of the ranges read, and a range whose image
      runs into the next one only over pointers `forward` rejects (at
      gb18030's pointer 39394, before 189000). */
  ghost predicate Laid(data: seq<(nat, nat)>, gb18030: bool) {
    && |data| > 0
    && (forall j | 0 <= j < |data| :: data[j].1 < U32_LIMIT)
    && (forall j | 0 <= j < |data| - 1 :: data[j].0 < data[j + 1].0 && data[j].1 < data[j + 1].1)
    && (gb18030 ==> data[0].1 <= 0xE7C7)
    && forall j, p | InRange(data, j, p) && !Rejected(gb18030, p) ::
         && Image(data, j, p) < Bound(data, j)
         && (gb18030 && p != 7457 ==> Image(data, j, p) != 0xE7C7)
  }

  /** `keys` and `values` are the pairs read with `s` (0 or 1) extra
      `(0, 0)` entries in front. */
  predicate Shifted(data: seq<(nat, nat)>, keys: seq<nat>, values: seq<nat>, s: nat) {
    && s <= 1 && |keys| == |values| == |data| + s
    && (s == 1 ==> keys[0] == 0 && values[0] == 0)
    && forall j | 0 <= j < |data| :: keys[j + s] == data[j].0 && values[j + s] == data[j].1
  }

  /** For the tables the generator emits from such ranges, the code points
      are in order (so `Backward` computes `BackwardOf`), and every pointer
      is either turned away by `forward` or found again by `backward` from
      the code point `forward` gives it. */
  lemma GeneratedRoundTrip(data: seq<(nat, nat)>, gb18030: bool, p: nat)
    requires Laid(data, gb18030) && p < U32_LIMIT
    ensures BuildRangeIndex(data, gb18030).Success?
    ensures Sorted(BuildRangeIndex(data, gb18030).value.values)
    ensures var idx := BuildRangeIndex(data, gb18030).value;
      if p < data[0].0 || Rejected(gb18030, p) then ForwardOf(idx, p) == NOT_FOUND
      else BackwardOf(idx, ForwardOf(idx, p)) == p
  {
    var s := Emits(data, gb18030);
    var idx := BuildRangeIndex(data, gb18030).value;
    ValuesSorted(data, idx.values, idx.keys, s);
    if !(p < data[0].0 || Rejected(gb18030, p)) {
      TablesRoundTrip(data, idx, s, p);
    }
  }

  /** Four of gb18030's ranges: the first two, and the two around the
      invalid region. */
  const GB18030_SAMPLE: seq<(nat, nat)> := [(0, 0x80), (36, 0xA5), (39394, 0xFFE6), (189000, 0x10000)]

  /** The sample meets `Laid`, although the generator puts `(0, 0)` in
      front of it, so pointer 0 is listed twice, and the range at 39394
      would run past the code point of the range at 189000. */
  lemma Gb18030Laid()
    ensures Laid(GB18030_SAMPLE, true)
    ensures BuildRangeIndex(GB18030_SAMPLE, true).Success?
    ensures BuildRangeIndex(GB18030_SAMPLE, true).value.keys == [0, 0, 36, 39394, 189000]
    ensures 0xFFE6 + (189000 - 39394) > 0x10000
  {
    var data := GB18030_SAMPLE;
    forall j, p | InRange(data, j, p) && !Rejected(true, p)
      ensures Image(data, j, p) < Bound(data, j)
      ensures p != 7457 ==> Image(data, j, p) != 0xE7C7
    {
      SampleRange(j, p);
    }
    SampleTables();
  }

  lemma SampleTables()
    ensures BuildRangeIndex(GB18030_SAMPLE, true).Success?
    ensures BuildRangeIndex(GB18030_SAMPLE, true).value.keys == [0, 0, 36, 39394, 189000]
  {
    var s := Emits(GB18030_SAMPLE, true);
    assert s == 1;
  }

  /** One range of the sample at a time. */
  lemma SampleRange(j: nat, p: nat)
    requires InRange(GB18030_SAMPLE, j, p) && !Rejected(true, p)
    ensures Image(GB18030_SAMPLE, j, p) < Bound(GB18030_SAMPLE, j)
    ensures p != 7457 ==> Image(GB18030_SAMPLE, j, p) != 0xE7C7
  {
    var data := GB18030_SAMPLE;
    if j == 0 {
      assert p < 36 && Image(data, j, p) == p + 0x80;
    } else if j == 1 {
      assert p < 39394 && Image(data, j, p) == p - 36 + 0xA5;
    } else if j == 2 {
      assert p <= 39419 && Image(data, j, p) == p - 39394 + 0xFFE6;
    } else {
      assert p <= 1237575 && Image(data, j, p) == p - 189000 + 0x10000;
    }
  }

  /** Strictly increasing pairs pass the generator's assertion, and the
      tables hold them after `s` extra entries. */
  lemma Emits(data: seq<(nat, nat)>, gb18030: bool) returns (s: nat)
    requires |data| > 0 && forall j | 0 <= j < |data| - 1 :: data[j].0 < data[j + 1].0
    ensures BuildRangeIndex(data, gb18030).Success?
    ensures var idx := BuildRangeIndex(data, gb18030).value;
      && Ready(idx) && Shifted(data, idx.keys, idx.values, s) && idx.gb18030 == gb18030
      && idx.minkey == data[0].0 && idx.minvalue == data[0].1
  {
    assert PairsSorted(data) by {
      forall i | 0 <= i < |data| - 1
        ensures PairLeq(data[i], data[i + 1])
      {}
    }
    var idx := BuildRangeIndex(data, gb18030).value;
    s := |idx.keys| - |data|;
  }

  /** The round trip of one accepted pointer, over tables that hold the
      pairs after `s` extra entries. */
  lemma TablesRoundTrip(data: seq<(nat, nat)>, idx: RangeIndex, s: nat, p: nat)
    requires Laid(data, idx.gb18030) && Ready(idx) && Shifted(data, idx.keys, idx.values, s)
    requires idx.minkey == data[0].0 && idx.minvalue == data[0].1
    requires data[0].0 <= p < U32_LIMIT && !Rejected(idx.gb18030, p)
    ensures BackwardOf(idx, ForwardOf(idx, p)) == p
  {
    var j := Containing(data, idx.keys, idx.values, s, p);
    if !(idx.gb18030 && p == 7457) {
      assert Image(data, j, p) < Bound(data, j) && (idx.gb18030 ==> Image(data, j, p) != 0xE7C7);
      ForwardAt(data, idx, s, j, p);
      BackwardAt(data, idx, s, j, p);
    }
  }

  /** `forward` maps `p` in range `j` to its code point there. */
  lemma ForwardAt(data: seq<(nat, nat)>, idx: RangeIndex, s: nat, j: nat, p: nat)
    requires InRange(data, j, p) && Image(data, j, p) < Bound(data, j) && Bound(data, j) <= U32_LIMIT
    requires Ready(idx) && Shifted(data, idx.keys, idx.values, s) && idx.minkey == data[0].0
    requires LastAtMost(idx.keys, p) == j + s
    requires !Rejected(idx.gb18030, p) && !(idx.gb18030 && p == 7457)
    ensures ForwardOf(idx, p) == Image(data, j, p)
  {
    assert idx.keys[j + s] == data[j].0 && idx.values[j + s] == data[j].1;
    LookupAt(idx.keys, idx.values, p, j + s);
  }

  /** `backward` maps the code point of `p` in range `j` back to `p`. */
  lemma BackwardAt(data: seq<(nat, nat)>, idx: RangeIndex, s: nat, j: nat, p: nat)
    requires forall k | 0 <= k < |data| - 1 :: data[k].1 < data[k + 1].1
    requires InRange(data, j, p) && Image(data, j, p) < Bound(data, j) && Bound(data, j) <= U32_LIMIT
    requires Ready(idx) && Shifted(data, idx.keys, idx.values, s) && idx.minvalue == data[0].1
    requires idx.gb18030 ==> Image(data, j, p) != 0xE7C7
    ensures BackwardOf(idx, Image(data, j, p)) == p
  {
    var q := Image(data, j, p);
    ValuesAbove(data, idx.values, idx.keys, s, j, p);
    LastIs(idx.values, q, j + s);
    LookupAt(idx.values, idx.keys, q, j + s);
    ValuesMonotone(data, 0, j);
  }

  /** The tables from strictly increasing pairs have their code points in
      order: the `(0, 0)` entry is below every code point read. */
  lemma ValuesSorted(data: seq<(nat, nat)>, values: seq<nat>, keys: seq<nat>, s: nat)
    requires forall j | 0 <= j < |data| - 1 :: data[j].1 < data[j + 1].1
    requires Shifted(data, keys, values, s)
    ensures Sorted(values)
  {
    forall a, b | 0 <= a <= b < |values|
      ensures values[a] <= values[b]
    {
      if a >= s {
        ValuesMonotone(data, a - s, b - s);
      }
    }
  }

  lemma {:induction false} ValuesMonotone(data: seq<(nat, nat)>, i: nat, j: nat)
    requires forall k | 0 <= k < |data| - 1 :: data[k].1 < data[k + 1].1
    requires i <= j < |data|
    ensures data[i].1 <= data[j].1
    ensures i < j ==> data[i].1 < data[j].1
    decreases j - i
  {
    if i < j {
      ValuesMonotone(data, i + 1, j);
    }
  }

  /** A pointer at or above the first range start lies in the range that
      the lookup over the emitted pointers selects. */
  lemma Containing(data: seq<(nat, nat)>, keys: seq<nat>, values: seq<nat>, s: nat, p: nat) returns (j: nat)
    requires Shifted(data, keys, values, s) && |data| > 0
    requires data[0].0 <= p < U32_LIMIT
    ensures InRange(data, j, p) && LastAtMost(keys, p) == j + s
  {
    assert keys[s] == data[0].0;
    var i := LastAtMost(keys, p);
    j := i - s;
    if j + 1 < |data| {
      assert keys[j + 1 + s] == data[j + 1].0;
    }
  }

  /** The code points of the ranges after the one holding `p` all lie above
      the code point `p` maps to. */
  lemma ValuesAbove(data: seq<(nat, nat)>, values: seq<nat>, keys: seq<nat>, s: nat, j: nat, p: nat)
    requires forall k | 0 <= k < |data| - 1 :: data[k].1 < data[k + 1].1
    requires Shifted(data, keys, values, s) && InRange(data, j, p)
    requires Image(data, j, p) < Bound(data, j)
    ensures values[j + s] <= Image(data, j, p)
    ensures forall j2 | j + s < j2 < |values| :: values[j2] > Image(data, j, p)
  {
    forall j2 | j + s < j2 < |values|
      ensures values[j2] > Image(data, j, p)
    {
      ValuesMonotone(data, j + 1, j2 - s);
    }
  }

  /** A lookup that does not wrap is the offset from the selected range
      start added to its target. */
  lemma LookupAt(fromtab: seq<nat>, totab: seq<nat>, code: nat, i: nat)
    requires |fromtab| == |totab| > 0 && fromtab[0] <= code
    requires LastAtMost(fromtab, code) == i && code - fromtab[i] + totab[i] < U32_LIMIT
    ensures Lookup(fromtab, totab, code) == code - fromtab[i] + totab[i]
  {}

  /** The last entry at most `code` is the one after which every entry is
      above `code`. */
  lemma LastIs(fromtab: seq<nat>, code: nat, j: nat)
    requires j < |fromtab| && fromtab[j] <= code && fromtab[0] <= code
    requires forall j2 | j < j2 < |fromtab| :: fromtab[j2] > code
    ensures LastAtMost(fromtab, code) == j
  {}
}
