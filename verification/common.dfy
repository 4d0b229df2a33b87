/**
 Shared vocabulary of the index model: failure-carrying results for the
 generator's crashes (a failed `assert`, `max` of nothing, popping an empty
 heap), powers of two for the `>>`/`&` arithmetic of the tries, and the
 row layout in which the emitted tables are written down.
 */
module Common {

  /** Python's `dict.get` result, or any value that may be absent. */
  datatype Option<T> = None | Some(value: T)

  /** A generator step that either produces a value or stops with the
      reason the Python program would have raised. */
  datatype Result<T> = Success(value: T) | Failure(error: string)

  /** One more than the largest `u32`. */
  const U32_LIMIT: int := 0x1_0000_0000

  /** The placeholder `X` (0xFFFF) of the emitted tables: a pointer or
      code point that is not in the index. */
  const X: int := 0xFFFF

  /** `1 << n`. */
  function Pow2(n: nat): (r: nat)
    ensures r >= 1
  {
    if n == 0 then 1 else 2 * Pow2(n - 1)
  }

  /** `x >> n` on a non-negative integer. */
  function Shr(x: nat, n: nat): nat {
    x / Pow2(n)
  }

  /** `x & ((1 << n) - 1)`: the low `n` bits. */
  function Mask(x: nat, n: nat): nat {
    x % Pow2(n)
  }

  /** `x` is its bucket `x >> n` and its offset `x & mask`, and that split is
      the only one with an offset below `1 << n`. */
  lemma ShrMask(x: nat, n: nat)
    ensures x == Shr(x, n) * Pow2(n) + Mask(x, n) && Mask(x, n) < Pow2(n)
  {}

  lemma ShrMaskUnique(x: nat, n: nat, q: int, r: int)
    requires 0 <= r < Pow2(n) && x == q * Pow2(n) + r
    ensures Shr(x, n) == q && Mask(x, n) == r
  {
    DivModUnique(x, Pow2(n), q, r);
  }

  lemma {:induction false} Pow2Add(a: nat, b: nat)
    ensures Pow2(a + b) == Pow2(a) * Pow2(b)
    decreases a
  {
    if a > 0 {
      Pow2Add(a - 1, b);
      assert Pow2(a + b) == 2 * Pow2(a - 1 + b);
    }
  }

  lemma {:induction false} Pow2Monotone(a: nat, b: nat)
    requires a <= b
    ensures Pow2(a) <= Pow2(b)
    decreases b
  {
    if a < b {
      Pow2Monotone(a, b - 1);
    }
  }

  /** `x >> n` followed by `>> m` is `x >> (n + m)`. */
  lemma ShiftShift(x: nat, n: nat, m: nat)
    ensures x / Pow2(n) / Pow2(m) == x / Pow2(n + m)
  {
    Pow2Add(n, m);
    DivDiv(x, Pow2(n), Pow2(m));
  }

  /** Division with remainder is unique. */
  lemma DivModUnique(x: int, d: int, q: int, r: int)
    requires d > 0 && 0 <= r < d && x == q * d + r
    ensures x / d == q && x % d == r
  {
    var q', r' := x / d, x % d;
    assert (q - q') * d == r' - r;
    if q > q' {
      MulAtLeast(q - q', d);
    } else if q < q' {
      MulAtLeast(q' - q, d);
    }
  }

  lemma MulAtLeast(k: int, d: int)
    requires k >= 1 && d > 0
    ensures k * d >= d
  {}

  lemma DivDiv(x: nat, a: nat, b: nat)
    requires a > 0 && b > 0
    ensures x / a / b == x / (a * b)
  {
    var q := x / a / b;
    var r := x / a % b;
    assert x / a == q * b + r;
    assert x == (q * b + r) * a + x % a;
    assert x == q * (a * b) + (r * a + x % a);
    assert r * a <= (b - 1) * a by {
      MulMono(r, b - 1, a);
    }
    DivModUnique(x, a * b, q, r * a + x % a);
  }

  lemma MulMono(u: int, v: int, a: int)
    requires u <= v && a >= 0
    ensures u * a <= v * a
  {}

  /** The concatenation of a table written as rows. */
  function Flatten(rows: seq<seq<int>>): (r: seq<int>)
    ensures |r| == SumLengths(rows)
  {
    if |rows| == 0 then [] else Flatten(rows[..|rows| - 1]) + rows[|rows| - 1]
  }

  function SumLengths(rows: seq<seq<int>>): nat {
    if |rows| == 0 then 0 else SumLengths(rows[..|rows| - 1]) + |rows[|rows| - 1]|
  }

  /** Every row but the last holds `w` entries and the last at most `w`:
      entry `i` of the flat table is then entry `i % w` of row `i / w`. */
  predicate RowShaped(rows: seq<seq<int>>, w: nat) {
    && w > 0
    && (forall r | 0 <= r < |rows| - 1 :: |rows[r]| == w)
    && (|rows| > 0 ==> 0 < |rows[|rows| - 1]| <= w)
  }

  lemma {:induction false} FlattenLength(rows: seq<seq<int>>, w: nat)
    requires RowShaped(rows, w)
    ensures |rows| > 0 ==> |Flatten(rows)| == (|rows| - 1) * w + |rows[|rows| - 1]|
    ensures |Flatten(rows)| == 0 <==> |rows| == 0
    decreases |rows|
  {
    if |rows| > 1 {
      FlattenLength(rows[..|rows| - 1], w);
    }
  }

  lemma {:induction false} FlattenAt(rows: seq<seq<int>>, w: nat, i: nat)
    requires RowShaped(rows, w)
    requires i < |Flatten(rows)|
    ensures i / w < |rows| && i % w < |rows[i / w]|
    ensures Flatten(rows)[i] == rows[i / w][i % w]
    decreases |rows|
  {
    var n := |rows|;
    var init := rows[..n - 1];
    InitShaped(rows, w);
    if i < |Flatten(init)| {
      FlattenAt(init, w, i);
      assert init[i / w] == rows[i / w];
    } else {
      LastRow(rows, w, i);
    }
  }

  /** Dropping the last row keeps the shape and leaves `n - 1` full rows. */
  lemma InitShaped(rows: seq<seq<int>>, w: nat)
    requires RowShaped(rows, w) && |rows| > 0
    ensures RowShaped(rows[..|rows| - 1], w)
    ensures |Flatten(rows[..|rows| - 1])| == (|rows| - 1) * w
    ensures Flatten(rows) == Flatten(rows[..|rows| - 1]) + rows[|rows| - 1]
  {
    var n := |rows|;
    var init := rows[..n - 1];
    assert forall r | 0 <= r < |init| :: init[r] == rows[r];
    FlattenLength(init, w);
    if n > 1 {
      assert |init[n - 2]| == w;
      assert (n - 2) * w + w == (n - 1) * w;
    }
  }

  /** An index past the first `n - 1` rows lies in the last row. */
  lemma LastRow(rows: seq<seq<int>>, w: nat, i: nat)
    requires RowShaped(rows, w) && |rows| > 0
    requires |Flatten(rows[..|rows| - 1])| == (|rows| - 1) * w <= i < |Flatten(rows)|
    requires Flatten(rows) == Flatten(rows[..|rows| - 1]) + rows[|rows| - 1]
    ensures i / w == |rows| - 1 && i % w < |rows[i / w]|
    ensures Flatten(rows)[i] == rows[i / w][i % w]
  {
    var n := |rows|;
    var k := i - (n - 1) * w;
    assert 0 <= k < |rows[n - 1]| <= w;
    DivModUnique(i, w, n - 1, k);
  }

  /** `rows` holds a table of `n` entries in rows of 32: every row full
      except a shorter last one. */
  predicate Rows(rows: seq<seq<int>>, n: nat) {
    && |rows| == (n + 31) / 32
    && forall r | 0 <= r < |rows| :: |rows[r]| == if r < n / 32 then 32 else n % 32
  }

  lemma RowsFlatten(rows: seq<seq<int>>, n: nat)
    requires Rows(rows, n)
    ensures RowShaped(rows, 32) && |Flatten(rows)| == n
    ensures forall i | 0 <= i < n :: i / 32 < |rows| && i % 32 < |rows[i / 32]| && Flatten(rows)[i] == rows[i / 32][i % 32]
  {
    FlattenLength(rows, 32);
    forall i | 0 <= i < n
      ensures i / 32 < |rows| && i % 32 < |rows[i / 32]| && Flatten(rows)[i] == rows[i / 32][i % 32]
    {
      FlattenAt(rows, 32, i);
    }
  }

  /** The set `{0, ..., n - 1}`. */
  function Range(n: nat): (r: set<nat>)
    ensures forall i: nat :: i in r <==> i < n
    ensures |r| == n
  {
    if n == 0 then {} else Range(n - 1) + {n - 1}
  }
}
