/**
 Key premapping of the euc-kr, jis0208 and jis0212 indexes
 (`src/index/gen_index.py:336-480,555-560`). Before a multi-byte index is
 written out, its pointers are renumbered so that the unused pointer
 ranges disappear from the forward table: the generator does it with a
 Python `premap`, and the emitted Rust carries a `premap_forward` that
 does the same on `u16` (with `X` for an unused pointer) and a
 `premap_backward` that undoes it.
 */
module Premap {
  import opened Common

  /** The three indexes that are premapped; every other index keeps its
      pointers (`premap = lambda i: i`). */
  datatype Scheme = EucKr | Jis0208 | Jis0212

  /** One more than the largest `u16`. */
  const U16_LIMIT: nat := 0x1_0000

  /** euc-kr: the pointers with a trail column of 96 or more come first,
      `(125 - 4) * (190 - 96)` of them, then the ones with a smaller column. */
  const EUC_KR_LOW: nat := (125 - 4) * (190 - 96)

  /** The number of premapped keys: `premap_forward` sends the pointers that
      are used onto exactly `0 .. ImageSize(s) - 1`. */
  function ImageSize(s: Scheme): nat {
    match s
    case EucKr => EUC_KR_LOW + 345 * (96 - 12)
    case Jis0208 => U16_LIMIT - 3160
    case Jis0212 => U16_LIMIT - 742
  }

  // ---------------------------------------------------------------------
  // The generator's `premap` (Python, unbounded integers, `None` for a gap)

  /** The key a pointer is renumbered to, or `None` for a pointer in a gap.
      The pointers an index can use land below `ImageSize`. */
  function Premap(s: Scheme, i: nat): (r: Option<nat>)
    ensures r.Some? && i < U16_LIMIT && (s == EucKr ==> i < 125 * 190) ==> r.value < ImageSize(s)
  {
    match s
    case EucKr => EucKrPremap(i)
    case Jis0208 => Jis0208Premap(i)
    case Jis0212 => Jis0212Premap(i)
  }

  /** Below row 125, columns 96 and up (the trailing bytes 0xA1..0xFE) fill
      the keys below `EUC_KR_LOW`, and the other columns the keys from it
      up to `ImageSize`. */
  function EucKrPremap(i: nat): (r: Option<nat>)
    ensures r.Some? && i < 125 * 190 ==> r.value < ImageSize(EucKr) && (r.value < EUC_KR_LOW <==> i % 190 >= 96)
  {
    var r, c := i / 190, i % 190;
    if c >= 96 then
      if r < 44 then Some(r * (190 - 96) + (c - 96))
      else if r < 47 then None
      else if r < 72 then Some((r - 3) * (190 - 96) + (c - 96))
      else if r < 73 then None
      else Some((r - 4) * (190 - 96) + (c - 96))
    else
      if c < 26 then Some(EUC_KR_LOW + r * (96 - 12) + c)
      else if c < 32 then None
      else if c < 58 then Some(EUC_KR_LOW + r * (96 - 12) + (c - 6))
      else if c < 64 then None
      else Some(EUC_KR_LOW + r * (96 - 12) + (c - 12))
  }

  /** Gaps are closed by moving later pointers down, by at most 3160. */
  function Jis0208Premap(i: nat): (r: Option<nat>)
    ensures r.Some? ==> r.value <= i <= r.value + 3160
  {
    if i < 690 then Some(i)
    else if i < 1128 then None
    else if i < 1220 then Some(i - 438)
    else if i < 1410 then None
    else if i < 7808 then Some(i - 628)
    else if i < 8272 then None
    else if i < 8648 then Some(i - 1092)
    else if i < 10716 then None
    else Some(i - 3160)
  }

  /** Gaps are closed by moving later pointers down, by at most 742. */
  function Jis0212Premap(i: nat): (r: Option<nat>)
    ensures r.Some? ==> r.value <= i <= r.value + 742
  {
    if i < 175 then Some(i)
    else if i < 534 then None
    else if i < 1027 then Some(i - 359)
    else if i < 1410 then None
    else Some(i - 742)
  }

  // ---------------------------------------------------------------------
  // The emitted `premap_forward` and `premap_backward` (Rust, `u16`)

  function Forward(s: Scheme, code: nat): (r: nat)
    requires code < U16_LIMIT
    ensures r < U16_LIMIT
  {
    match s
    case EucKr => EucKrForward(code)
    case Jis0208 => Jis0208Forward(code)
    case Jis0212 => Jis0212Forward(code)
  }

  function Backward(s: Scheme, code: nat): (r: nat)
    requires code < U16_LIMIT
    ensures r < U16_LIMIT
  {
    match s
    case EucKr => EucKrBackward(code)
    case Jis0208 => Jis0208Backward(code)
    case Jis0212 => Jis0212Backward(code)
  }

  /** The row `code / 190` of a `u16` is at most 344. */
  lemma RowBound(code: nat)
    requires code < U16_LIMIT
    ensures code / 190 <= 344
  {}

  /** The `u16` arithmetic of `premap_forward` never leaves the `u16` range:
      no subtraction goes below zero and no product overflows. */
  function EucKrForward(code: nat): (r: nat)
    requires code < U16_LIMIT
    ensures r < U16_LIMIT
  {
    var r, c := code / 190, code % 190;
    if c >= 96 then
      if r <= 43 then r * (190 - 96) + (c - 96)
      else if r <= 46 then X
      else if r <= 71 then (r - 3) * (190 - 96) + (c - 96)
      else if r == 72 then X
      else if r <= 124 then (r - 4) * (190 - 96) + (c - 96)
      else X
    else
      RowBound(code);
      if c <= 25 then EUC_KR_LOW + r * (96 - 12) + c
      else if c <= 31 then X
      else if c <= 57 then EUC_KR_LOW + r * (96 - 12) + (c - 6)
      else if c <= 63 then X
      else EUC_KR_LOW + r * (96 - 12) + (c - 12)
  }

  /** `r * 190` in the second branch is `u16` arithmetic: for a code that
      `premap_forward` never produces it can exceed `u16`, and is taken
      modulo `2^16` here. */
  function EucKrBackward(code: nat): (r: nat)
    requires code < U16_LIMIT
    ensures r < U16_LIMIT
  {
    if code < EUC_KR_LOW then
      var r, c := code / (190 - 96), code % (190 - 96);
      var dr := if r <= 43 then 0 else if r <= 68 then 3 else 4;
      (r + dr) * 190 + (c + 96)
    else if code < X then
      var low := code - EUC_KR_LOW;
      var r, c := low / (96 - 12), low % (96 - 12);
      var dc := if c <= 25 then 0 else if c <= 51 then 6 else 12;
      (r * 190 + (c + dc)) % U16_LIMIT
    else
      X
  }

  function Jis0208Forward(code: nat): (r: nat)
    requires code < U16_LIMIT
    ensures r < U16_LIMIT
  {
    if code <= 689 then code
    else if code <= 1127 then X
    else if code <= 1219 then code - 438
    else if code <= 1409 then X
    else if code <= 7807 then code - 628
    else if code <= 8271 then X
    else if code <= 8647 then code - 1092
    else if code <= 10715 then X
    else code - 3160
  }

  function Jis0208Backward(code: nat): (r: nat)
    requires code < U16_LIMIT
    ensures r < U16_LIMIT
  {
    if code <= 689 then code
    else if code <= 781 then code + 438
    else if code <= 7179 then code + 628
    else if code <= 7555 then code + 1092
    else SaturatingAdd(code, 3160)
  }

  function Jis0212Forward(code: nat): (r: nat)
    requires code < U16_LIMIT
    ensures r < U16_LIMIT
  {
    if code <= 174 then code
    else if code <= 533 then X
    else if code <= 1026 then code - 359
    else if code <= 1409 then X
    else code - 742
  }

  function Jis0212Backward(code: nat): (r: nat)
    requires code < U16_LIMIT
    ensures r < U16_LIMIT
  {
    if code <= 174 then code
    else if code <= 667 then code + 359
    else SaturatingAdd(code, 742)
  }

  /** `u16::saturating_add`. */
  function SaturatingAdd(a: nat, b: nat): (r: nat)
    requires a < U16_LIMIT && b < U16_LIMIT
    ensures r < U16_LIMIT
    ensures r == a + b || (a + b >= U16_LIMIT && r == U16_LIMIT - 1)
  {
    if a + b < U16_LIMIT then a + b else U16_LIMIT - 1
  }

  // ---------------------------------------------------------------------
  // `premap_backward` undoes `premap_forward`

  /** Every used pointer comes back from `premap_backward`, and its premapped
      key lies below `ImageSize`. */
  lemma RoundTrip(s: Scheme, k: nat)
    requires k < U16_LIMIT && Forward(s, k) != X
    ensures Forward(s, k) < ImageSize(s)
    ensures Backward(s, Forward(s, k)) == k
  {
    if s == EucKr {
      EucKrRoundTrip(k);
    }
  }

  lemma EucKrRoundTrip(k: nat)
    requires k < U16_LIMIT && EucKrForward(k) != X
    ensures EucKrForward(k) < ImageSize(EucKr)
    ensures EucKrBackward(EucKrForward(k)) == k
  {
    if k % 190 >= 96 {
      EucKrRoundTripHigh(k);
    } else {
      EucKrRoundTripLow(k);
    }
  }

  /** A pointer with a trail column of 96 or more lands below `EUC_KR_LOW`. */
  lemma EucKrRoundTripHigh(k: nat)
    requires k < U16_LIMIT && EucKrForward(k) != X && k % 190 >= 96
    ensures EucKrForward(k) < EUC_KR_LOW
    ensures EucKrBackward(EucKrForward(k)) == k
  {
    var r, c := k / 190, k % 190;
    var dr := if r <= 43 then 0 else if r <= 71 then 3 else 4;
    var f := EucKrForward(k);
    assert f == (r - dr) * (190 - 96) + (c - 96);
    assert f < EUC_KR_LOW by {
      MulMono(r - dr, 120, 190 - 96);
    }
    DivModUnique(f, 190 - 96, r - dr, c - 96);
  }

  /** A pointer with a trail column below 96 lands at `EUC_KR_LOW` or above. */
  lemma EucKrRoundTripLow(k: nat)
    requires k < U16_LIMIT && EucKrForward(k) != X && k % 190 < 96
    ensures EUC_KR_LOW <= EucKrForward(k) < ImageSize(EucKr)
    ensures EucKrBackward(EucKrForward(k)) == k
  {
    var r, c := k / 190, k % 190;
    var dc := if c <= 25 then 0 else if c <= 57 then 6 else 12;
    var f := EucKrForward(k);
    assert f == EUC_KR_LOW + r * (96 - 12) + (c - dc);
    assert f < ImageSize(EucKr) by {
      RowBound(k);
      MulMono(r, 344, 96 - 12);
    }
    DivModUnique(f - EUC_KR_LOW, 96 - 12, r, c - dc);
  }

  /** Every key below `ImageSize` is the premapped key of a used pointer,
      namely of the one `premap_backward` gives: together with `RoundTrip`,
      the premapping is a bijection from the used pointers onto
      `0 .. ImageSize(s) - 1`. */
  lemma Dense(s: Scheme, p: nat)
    requires p < ImageSize(s)
    ensures Forward(s, Backward(s, p)) == p
  {
    if s == EucKr {
      if p < EUC_KR_LOW {
        EucKrDenseHigh(p);
      } else {
        EucKrDenseLow(p);
      }
    }
  }

  lemma EucKrDenseHigh(p: nat)
    requires p < EUC_KR_LOW
    ensures EucKrForward(EucKrBackward(p)) == p
  {
    var r, c := p / (190 - 96), p % (190 - 96);
    var dr := if r <= 43 then 0 else if r <= 68 then 3 else 4;
    var k := EucKrBackward(p);
    assert k == (r + dr) * 190 + (c + 96);
    DivModUnique(k, 190, r + dr, c + 96);
  }

  lemma EucKrDenseLow(p: nat)
    requires EUC_KR_LOW <= p < ImageSize(EucKr)
    ensures EucKrForward(EucKrBackward(p)) == p
  {
    var r, c := EucKrBackwardLow(p);
    EucKrForwardLow(r, if c <= 25 then c else if c <= 51 then c + 6 else c + 12);
  }

  /** `premap_backward` on a key past the trail-96 block: row `r` and
      column `c` of the low block, with the column gaps put back. */
  lemma EucKrBackwardLow(p: nat) returns (r: nat, c: nat)
    requires EUC_KR_LOW <= p < ImageSize(EucKr)
    ensures r <= 344 && c < 96 - 12 && p == EUC_KR_LOW + r * (96 - 12) + c
    ensures EucKrBackward(p) == r * 190 + (if c <= 25 then c else if c <= 51 then c + 6 else c + 12)
  {
    var low := p - EUC_KR_LOW;
    r, c := low / (96 - 12), low % (96 - 12);
    assert r <= 344 by {
      DivModUnique(low, 96 - 12, r, c);
    }
    EucKrBackwardAt(p, r, c);
  }

  lemma EucKrBackwardAt(p: nat, r: nat, c: nat)
    requires EUC_KR_LOW <= p < X && r <= 344 && c < 96 - 12
    requires p - EUC_KR_LOW == r * (96 - 12) + c
    ensures EucKrBackward(p) == r * 190 + (if c <= 25 then c else if c <= 51 then c + 6 else c + 12)
  {
    DivModUnique(p - EUC_KR_LOW, 96 - 12, r, c);
    var k := r * 190 + (if c <= 25 then c else if c <= 51 then c + 6 else c + 12);
    assert k < U16_LIMIT by {
      MulMono(r, 344, 190);
    }
    DivModUnique(k, U16_LIMIT, 0, k);
  }

  /** `premap_forward` on a pointer of row `r` with a trail column below 96
      outside the two gaps. */
  lemma EucKrForwardLow(r: nat, c: nat)
    requires r <= 344 && c < 96 && (c <= 25 || 32 <= c <= 57 || 64 <= c)
    ensures r * 190 + c < U16_LIMIT
    ensures EucKrForward(r * 190 + c) ==
      EUC_KR_LOW + r * (96 - 12) + (if c <= 25 then c else if c <= 57 then c - 6 else c - 12)
  {
    MulMono(r, 344, 190);
    DivModUnique(r * 190 + c, 190, r, c);
  }

  /** Distinct used pointers get distinct premapped keys. */
  lemma ForwardInjective(s: Scheme, a: nat, b: nat)
    requires a < U16_LIMIT && b < U16_LIMIT
    requires Forward(s, a) != X && Forward(s, a) == Forward(s, b)
    ensures a == b
  {
    RoundTrip(s, a);
    RoundTrip(s, b);
  }

  // ---------------------------------------------------------------------
  // The generator's `premap` and the emitted `premap_forward` agree

  /** On every `u16` pointer the Python and the Rust premapping agree, with
      `None` for `X`, except for the euc-kr pointers past row 124 with a
      trail column of 96 or more: the Rust answers `X` there, while the
      Python renumbers them onto keys that other pointers already have. */
  lemma Agree(s: Scheme, k: nat)
    requires k < U16_LIMIT
    ensures Forward(s, k) != X ==> Premap(s, k) == Some(Forward(s, k))
    ensures Premap(s, k).None? ==> Forward(s, k) == X
    ensures Premap(s, k).Some? && Forward(s, k) == X <==>
      s == EucKr && k / 190 >= 125 && k % 190 >= 96
  {}

  /** The Python premap alone is not injective on euc-kr: pointer
      `125 * 190 + 96` takes the key of pointer 0, which is why the
      generator checks that the premapped keys are distinct. */
  lemma EucKrCollision()
    ensures EucKrPremap(125 * 190 + 96) == EucKrPremap(0) == Some(EUC_KR_LOW)
  {}

  /** On the whole `u16` range for the JIS indexes, and for euc-kr below
      row 125, the Python premap is injective. The euc-kr index has 125
      rows of 190 pointers, but the generator does not check that, and past
      them the premap collides (`EucKrCollision`). */
  lemma PremapInjective(s: Scheme, a: nat, b: nat)
    requires a < U16_LIMIT && b < U16_LIMIT
    requires s == EucKr ==> a < 125 * 190 && b < 125 * 190
    requires Premap(s, a).Some? && Premap(s, a) == Premap(s, b)
    ensures a == b
  {
    Agree(s, a);
    Agree(s, b);
    ForwardInjective(s, a, b);
  }

  // ---------------------------------------------------------------------
  // Renumbering the keys of the index (`gen_index.py:555-560`)

  /** Every key premaps to a `u16` and no two keys premap to the same key:
      exactly what the generator's `assert` demands of the index. */
  ghost predicate Premappable(premap: nat -> Option<nat>, data: map<nat, nat>) {
    && (forall k | k in data :: premap(k).Some? && premap(k).value < U16_LIMIT)
    && (forall a, b | a in data && b in data && premap(a) == premap(b) :: a == b)
  }

  /** `keys` is the order in which `data.items()` yields the keys: each
      key of `data` once. */
  predicate Listing(keys: seq<nat>, data: map<nat, nat>) {
    && (forall k | k in keys :: k in data)
    && (forall k | k in data :: k in keys)
    && (forall i, j | 0 <= i < j < |keys| :: keys[i] != keys[j])
  }

  /** The loop that replaces every key by its premapped key, for any
      `premap` (the identity when the index is not premapped); it stops
      (the `assert` fails) at a key that is a gap, does not fit in `u16`,
      or was already produced. Whatever the order of `keys`, it succeeds
      exactly on a premappable index and then keeps every value under its
      key's premapped key, and nothing else. */
  method PremapKeys(premap: nat -> Option<nat>, data: map<nat, nat>, keys: seq<nat>)
    returns (r: Result<map<nat, nat>>)
    requires Listing(keys, data)
    ensures r.Success? <==> Premappable(premap, data)
    ensures r.Success? ==> Renumbered(premap, data, r.value)
  {
    var newdata: map<nat, nat> := map[];
    for i := 0 to |keys|
      invariant RenumberedPrefix(premap, data, keys, i, newdata)
    {
      var key := premap(keys[i]);
      if key.None? || key.value >= U16_LIMIT {
        assert keys[i] in data;
        return Failure("assert key is not None and 0 <= key < 0x10000");
      }
      if key.value in newdata {
        Collision(premap, data, keys, i, newdata);
        return Failure("assert key not in newdata");
      }
      RenumberStep(premap, data, keys, i, newdata);
      newdata := newdata[key.value := data[keys[i]]];
    }
    RenumberDone(premap, data, keys, newdata);
    return Success(newdata);
  }

  /** `newdata` holds every value of `data` under its key's premapped key,
      and nothing else. */
  ghost predicate Renumbered(premap: nat -> Option<nat>, data: map<nat, nat>, newdata: map<nat, nat>) {
    && (forall k | k in data ::
          premap(k).Some? && premap(k).value in newdata && newdata[premap(k).value] == data[k])
    && (forall p | p in newdata :: exists k | k in data :: premap(k) == Some(p))
  }

  /** The loop invariant: the first `i` keys premap to distinct `u16` keys,
      which `newdata` holds with their values, and nothing else. */
  ghost predicate RenumberedPrefix(premap: nat -> Option<nat>, data: map<nat, nat>, keys: seq<nat>, i: nat, newdata: map<nat, nat>) {
    && i <= |keys|
    && PrefixStored(premap, data, keys, i, newdata)
    && PrefixDistinct(premap, keys, i)
    && PrefixOnly(premap, keys, i, newdata)
  }

  ghost predicate PrefixStored(premap: nat -> Option<nat>, data: map<nat, nat>, keys: seq<nat>, i: nat, newdata: map<nat, nat>)
    requires i <= |keys|
  {
    forall j | 0 <= j < i ::
      keys[j] in data && premap(keys[j]).Some? && premap(keys[j]).value < U16_LIMIT &&
      premap(keys[j]).value in newdata && newdata[premap(keys[j]).value] == data[keys[j]]
  }

  ghost predicate PrefixDistinct(premap: nat -> Option<nat>, keys: seq<nat>, i: nat)
    requires i <= |keys|
  {
    forall j1, j2 | 0 <= j1 < j2 < i :: premap(keys[j1]) != premap(keys[j2])
  }

  ghost predicate PrefixOnly(premap: nat -> Option<nat>, keys: seq<nat>, i: nat, newdata: map<nat, nat>)
    requires i <= |keys|
  {
    forall p | p in newdata :: exists j | 0 <= j < i :: premap(keys[j]) == Some(p)
  }

  lemma RenumberStep(premap: nat -> Option<nat>, data: map<nat, nat>, keys: seq<nat>, i: nat, newdata: map<nat, nat>)
    requires Listing(keys, data) && i < |keys| && RenumberedPrefix(premap, data, keys, i, newdata)
    requires premap(keys[i]).Some? && premap(keys[i]).value < U16_LIMIT && premap(keys[i]).value !in newdata
    ensures RenumberedPrefix(premap, data, keys, i + 1, newdata[premap(keys[i]).value := data[keys[i]]])
  {
    StepStored(premap, data, keys, i, newdata);
    StepDistinct(premap, data, keys, i, newdata);
    StepOnly(premap, data, keys, i, newdata);
  }

  lemma StepStored(premap: nat -> Option<nat>, data: map<nat, nat>, keys: seq<nat>, i: nat, newdata: map<nat, nat>)
    requires i < |keys| && keys[i] in data && PrefixStored(premap, data, keys, i, newdata)
    requires premap(keys[i]).Some? && premap(keys[i]).value < U16_LIMIT && premap(keys[i]).value !in newdata
    ensures PrefixStored(premap, data, keys, i + 1, newdata[premap(keys[i]).value := data[keys[i]]])
  {
    var newdata' := newdata[premap(keys[i]).value := data[keys[i]]];
    forall j | 0 <= j < i + 1
      ensures keys[j] in data && premap(keys[j]).Some? && premap(keys[j]).value < U16_LIMIT
      ensures premap(keys[j]).value in newdata' && newdata'[premap(keys[j]).value] == data[keys[j]]
    {
      if j < i {
        assert premap(keys[j]).value in newdata;
      }
    }
  }

  lemma StepDistinct(premap: nat -> Option<nat>, data: map<nat, nat>, keys: seq<nat>, i: nat, newdata: map<nat, nat>)
    requires i < |keys| && PrefixStored(premap, data, keys, i, newdata) && PrefixDistinct(premap, keys, i)
    requires premap(keys[i]).Some? && premap(keys[i]).value !in newdata
    ensures PrefixDistinct(premap, keys, i + 1)
  {
    forall j1, j2 | 0 <= j1 < j2 < i + 1
      ensures premap(keys[j1]) != premap(keys[j2])
    {
      if j2 == i {
        assert premap(keys[j1]).value in newdata;
      }
    }
  }

  lemma StepOnly(premap: nat -> Option<nat>, data: map<nat, nat>, keys: seq<nat>, i: nat, newdata: map<nat, nat>)
    requires i < |keys| && keys[i] in data && PrefixOnly(premap, keys, i, newdata)
    requires premap(keys[i]).Some?
    ensures PrefixOnly(premap, keys, i + 1, newdata[premap(keys[i]).value := data[keys[i]]])
  {
    var newdata' := newdata[premap(keys[i]).value := data[keys[i]]];
    forall p | p in newdata'
      ensures exists j | 0 <= j < i + 1 :: premap(keys[j]) == Some(p)
    {
      if p != premap(keys[i]).value {
        var j :| 0 <= j < i && premap(keys[j]) == Some(p);
      }
    }
  }

  /** A premapped key met twice means two distinct keys of `data` share it. */
  lemma Collision(premap: nat -> Option<nat>, data: map<nat, nat>, keys: seq<nat>, i: nat, newdata: map<nat, nat>)
    requires Listing(keys, data) && i < |keys| && RenumberedPrefix(premap, data, keys, i, newdata)
    requires premap(keys[i]).Some? && premap(keys[i]).value in newdata
    ensures !Premappable(premap, data)
  {
    var j :| 0 <= j < i && premap(keys[j]) == premap(keys[i]);
    assert keys[j] in data && keys[i] in data && keys[j] != keys[i];
  }

  lemma RenumberDone(premap: nat -> Option<nat>, data: map<nat, nat>, keys: seq<nat>, newdata: map<nat, nat>)
    requires Listing(keys, data) && RenumberedPrefix(premap, data, keys, |keys|, newdata)
    ensures Premappable(premap, data) && Renumbered(premap, data, newdata)
  {
    forall a, b | a in data && b in data && premap(a) == premap(b)
      ensures a == b
    {
      var i :| 0 <= i < |keys| && keys[i] == a;
      var j :| 0 <= j < |keys| && keys[j] == b;
    }
    forall k | k in data
      ensures premap(k).Some? && premap(k).value in newdata && newdata[premap(k).value] == data[k]
    {
      var i :| 0 <= i < |keys| && keys[i] == k;
    }
    forall p | p in newdata
      ensures exists k | k in data :: premap(k) == Some(p)
    {
      var j :| 0 <= j < |keys| && premap(keys[j]) == Some(p);
      assert keys[j] in data;
    }
  }

  /** For the indexes the generator reads (pointers below `0xFFFF`, and
      euc-kr pointers below row 125), premapping fails only on a pointer
      that lies in a gap. */
  lemma PremappableIndex(s: Scheme, data: map<nat, nat>)
    requires forall k | k in data :: k < 0xFFFF && (s == EucKr ==> k < 125 * 190)
    ensures Premappable((i: nat) => Premap(s, i), data) <==> forall k | k in data :: Premap(s, k).Some?
  {
    if forall k | k in data :: Premap(s, k).Some? {
      forall k | k in data
        ensures Premap(s, k).value < U16_LIMIT
      {
        Agree(s, k);
      }
      forall a, b | a in data && b in data && Premap(s, a) == Premap(s, b)
        ensures a == b
      {
        PremapInjective(s, a, b);
      }
    }
  }
}
