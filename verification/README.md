# Index tables of rust-encoding, modelled in Dafny

rust-encoding converts between legacy encodings and Unicode through
*indexes*: tables that map a pointer (a byte, or a multi-byte position)
to a code point (`forward`), and a code point back to a pointer
(`backward`). The Rust tables and lookup functions are emitted by the
Python generator `src/index/gen_index.py`. This project models the parts
of that generator and of its output that decide whether a lookup is
right:

- **Single-byte indexes.** `generate_single_byte_index` reads 128
  pointer/code point pairs. It builds a two-level trie for `backward` and
  emits FORWARD_TABLE, BACKWARD_TABLE_LOWER and BACKWARD_TABLE_UPPER. It
  also emits an unoptimized `backward`: a rejection bitmap followed by a
  linear search (modules `SingleByte` and `SingleByteIndex`).
- **Two emitted files, with their tables as written.**
  `singlebyte/windows_1256.rs` and `singlebyte/iso_8859_16.rs` (modules
  `Windows1256` and `Iso885916`). For these, the properties are proved
  for every `u32` input.
- **The trie construction.** `make_minimal_trie` splits the code points
  into buckets of `2^triebits` and stores each distinct non-empty block
  once. `optimize_overlapping_blocks` chains the blocks greedily so that
  consecutive blocks overlap in their empty ends. The layout loop then
  writes LOWER and UPPER (module `Trie`).
- **Key premapping for euc-kr, jis0208 and jis0212.** The generator
  renumbers pointers with a Python `premap`. The emitted Rust carries
  `premap_forward` and `premap_backward` on `u16`. The generator checks
  that the renumbered keys are distinct (module `Premap`).
- **Range indexes** (gb18030 ranges). The generator emits lower-bound
  tables and an unrolled binary search, with the gb18030 special cases
  in `forward` and `backward` (module `RangeIndex`).

The reference meaning used throughout comes from the WHATWG Encoding
Standard:
- A single-byte `backward` must be the encoder of section 9.2: 0x80 plus
  the first pointer of the code point, or 0 when there is none
  (`SingleByte.Pointer`).
- A range index maps a pointer to the code point of the last range
  starting at or below it, plus its offset in that range
  (`RangeIndex.LastAtMost`, `RangeIndex.Lookup`).

Python failures are modelled as `Failure` results:
- a failed `assert`;
- `max()` of an empty dictionary;
- a negative shift count;
- unpacking `None`.

Rust `u16` and `u32` arithmetic is written out where it can wrap.

## Conventions of the emitted code

- **`forward` takes the byte.** The single-byte `forward` takes the byte
  `0x80..0xFF` and subtracts 0x80 to index FORWARD_TABLE. So ISO-8859-16
  has `Forward(0xA1) == 260` and `Backward(260) == 0xA1`.
- **windows-1256 U+20AC.** `backward` returns the byte 0x80 for U+20AC
  (`Windows1256.LookupExamples`). Pointer 0 is byte 0x80, and only the
  byte value 0 means "not found".
- **Empty buckets read the first block.** `backward` has no separate test
  for an empty bucket. A bucket with UPPER entry 0 and a bucket past
  UPPER both read the all-zero first block of LOWER, which gives 0
  (`Windows1256.EmptyBuckets`).
- **UPPER length.** UPPER has one entry per bucket up to the largest code
  point, `(max + 1 + 31) / 32` entries. That is 266 for windows-1256
  (largest code point 8482) and 262 for ISO-8859-16 (largest 8364)
  (`Windows1256.TablesSafe`, `Iso885916.TablesSafe`).

## Model

| member | source | states |
|---|---|---|
| Windows1256.Forward | src/index/singlebyte/windows_1256.rs:28-30 | every byte 0x80..0xFF reads a real code point, at most the index's largest one (U+2122): the table has no placeholder entry |
| Windows1256.Backward | src/index/singlebyte/windows_1256.rs:80-84 | the emitted `backward` of windows-1256: the bucket's UPPER entry (0 past UPPER) plus the low five bits index LOWER; `Windows1256.BackwardIsPointer` and `Windows1256.Converse` state its meaning for every code point |
| Windows1256.TablesSafe | src/index/singlebyte/windows_1256.rs:12-84 | the emitted tables have 128, 576 and 266 entries (one UPPER entry per bucket up to the largest code point), and every UPPER entry plus 31 is inside LOWER, so `forward` and `backward` never read out of bounds |
| Windows1256.EmptyBuckets | src/index/singlebyte/windows_1256.rs:80-84 | every code point whose bucket is past UPPER or has UPPER entry 0 gets `backward` 0 |
| Windows1256.RoundTrip | src/index/singlebyte/windows_1256.rs:28-84 | `backward(forward(b)) == b` for all 128 bytes |
| Windows1256.Converse | src/index/singlebyte/windows_1256.rs:28-84 | for every code point, `backward` is 0 or a byte 0x80..0xFF whose `forward` is that code point |
| Windows1256.ForwardInjective | src/index/singlebyte/windows_1256.rs:12-23 | no two bytes decode to the same code point |
| Windows1256.BackwardIsPointer | src/index/singlebyte/windows_1256.rs:80-84 | `backward` equals the reference single-byte encoder over FORWARD_TABLE on every code point |
| Windows1256.LookupExamples | src/index/singlebyte/windows_1256.rs:28-84 | worked lookups: 0x80 decodes to U+20AC and back; 0x99 decodes to the largest code point; 0x41 and 0xFFFFFFFF are not found |
| Windows1256.TableExamples | src/index/singlebyte/windows_1256.rs:62-75 | UPPER has 266 entries and bucket 261 starts at offset 512 |
| Iso885916.Forward | src/index/singlebyte/iso_8859_16.rs:27-29 | every byte 0x80..0xFF reads a real code point, at most the index's largest one (U+20AC) |
| Iso885916.Backward | src/index/singlebyte/iso_8859_16.rs:69-73 | the emitted `backward` of ISO-8859-16: the bucket's UPPER entry (0 past UPPER) plus the low five bits index LOWER; `Iso885916.BackwardIsPointer` and `Iso885916.Converse` state its meaning for every code point |
| Iso885916.TablesSafe | src/index/singlebyte/iso_8859_16.rs:12-73 | the tables have their emitted lengths, UPPER one entry per bucket up to the largest code point, and every read of `forward` and `backward` is in bounds for every input |
| Iso885916.EmptyBuckets | src/index/singlebyte/iso_8859_16.rs:69-73 | buckets past UPPER and empty buckets give `backward` 0 |
| Iso885916.RoundTrip | src/index/singlebyte/iso_8859_16.rs:27-73 | `backward(forward(b)) == b` for all 128 bytes |
| Iso885916.Converse | src/index/singlebyte/iso_8859_16.rs:27-73 | a non-zero `backward` is a byte whose `forward` is the query |
| Iso885916.ForwardInjective | src/index/singlebyte/iso_8859_16.rs:12-22 | no two bytes decode to the same code point |
| Iso885916.BackwardIsPointer | src/index/singlebyte/iso_8859_16.rs:69-73 | `backward` equals the reference single-byte encoder on every code point |
| Iso885916.LookupExamples | src/index/singlebyte/iso_8859_16.rs:27-73 | 0xA1 decodes to U+0104 and U+0104 encodes to 0xA1; 0xA4 decodes to U+20AC, the largest code point |
| Iso885916.TableExamples | src/index/singlebyte/iso_8859_16.rs:52-64 | UPPER has 262 entries and LOWER 352 |
| Iso885916.ForwardIdentityPrefix | src/index/singlebyte/iso_8859_16.rs:12-15 | bytes 0x80..0xA0 decode to themselves |
| SingleByte.Forward | src/index/gen_index.py:286-288 | a byte's code point, when it has one, is found by the reference encoder at that byte or an earlier one holding the same code point |
| SingleByte.Backward | src/index/gen_index.py:308-312 | the answer is read from the block of the code point's bucket (`SingleByte.BackwardIsPointer` pins it down) |
| SingleByte.Base | src/index/gen_index.py:309-310 | the offset `backward` takes leaves a whole block inside LOWER, and is 0 past UPPER |
| SingleByte.Pointer | src/index/gen_index.py:319-322 | the reference encoder is 0 exactly for a code point not in the table; otherwise 0x80 plus the first position holding it |
| SingleByte.RoundTripInjective | src/index/gen_index.py:284-312 | a round-tripping index has an injective `forward` |
| SingleByte.BackwardIsPointer | src/index/gen_index.py:305-312 | for any safe tables, round trip plus converse make the trie `backward` equal to the reference encoder on every code point |
| SingleByte.ReadIndex | src/index/gen_index.py:240-246 | the reading loop yields a 128-entry pointer array (`SingleByte.ReadIndexCorrect` gives when it succeeds and what it holds) |
| SingleByte.ReadIndexCorrect | src/index/gen_index.py:243-246 | reading succeeds exactly when every pointer is below 128, every code point below 0xFFFF and none repeats; `data` and `invdata` then hold exactly the pairs, as inverses |
| SingleByte.MaxValue | src/index/gen_index.py:253 | the largest code point of `data`, or -1 when there is none |
| SingleByte.BitLength | src/index/gen_index.py:252-254 | the least `n` with `max < 2^n` |
| SingleByte.MakeBitmap | src/index/gen_index.py:251-259 | a built bitmap has the bit of every code point set and no bit at 32 or above (`SingleByte.MakeBitmapCorrect` gives when it is built) |
| SingleByte.MakeBitmapCorrect | src/index/gen_index.py:251-259 | the bitmap is built exactly when the largest code point is at least 16; then the range assertion holds, each code point's bit is set, and the largest code point shifts below 32 |
| SingleByte.UnoptimizedBackward | src/index/gen_index.py:314-323 | the bitmap-and-linear-search `backward` equals the reference encoder for every `u32` |
| SingleByteIndex.GenerateSingleByteIndex | src/index/gen_index.py:239-323 | an index failing the reading assertion is rejected; emitted tables list exactly the entries, are in bounds for every code point, fit `u8`/`u16`, and their `backward` is the reference encoder |
| SingleByteIndex.GeneratedRoundTrips | src/index/gen_index.py:239-312 | emitted tables round-trip every byte with a code point, and a non-zero `backward` names a byte of the query |
| SingleByteIndex.BackwardsAgree | src/index/gen_index.py:305-323 | the unoptimized and the trie `backward` return the same byte for every `u32` |
| Trie.Leading | src/index/gen_index.py:107-108 | the leading gap: slots before it empty, the next one holding a value |
| Trie.Trailing | src/index/gen_index.py:109-110 | the trailing gap: slots after it empty, the one before it holding a value |
| Trie.GapsFit | src/index/gen_index.py:106-110 | in a non-empty block the two gaps do not cover the whole block |
| Trie.SplitBlocks | src/index/gen_index.py:174-184 | one block index per bucket scanned (`Trie.SplitBlocksCorrect` states what each index means) |
| Trie.SplitBlocksCorrect | src/index/gen_index.py:174-184 | every bucket maps to -1 exactly when its block is empty, and otherwise to the stored block equal to it; stored blocks are non-empty |
| Trie.BlocksDistinct | src/index/gen_index.py:179-183 | each distinct block is stored once |
| Trie.BlockValues | src/index/gen_index.py:178 | stored blocks hold only values of `invdata` |
| Trie.BestBelow | src/index/gen_index.py:144-152 | the first element in heap order among those below a bound, or none |
| Trie.Pop | src/index/gen_index.py:144-145 | `heappop` returns an element that comes first in `(-gap, idx)` order |
| Trie.OptimizeOverlappingBlocks | src/index/gen_index.py:83-167 | fails exactly on no blocks or an empty block; otherwise every block appears once, the first with its leading gap as shift and each later one with the smaller of its leading gap and the previous block's trailing gap |
| Trie.GreedyChain | src/index/gen_index.py:112-167 | the greedy loop returns a permutation of the blocks whose shifts follow the gaps of their neighbours |
| Trie.GreedyLinks | src/index/gen_index.py:139-159 | after `n - 1` joins, the links form one path through all blocks, each link overlapping by the smaller gap |
| Trie.Choose | src/index/gen_index.py:144-155 | the popped pair is a chain end and a chain head of different groups, so no cycle is made and `preblk not in nextblk` holds |
| Trie.Reject | src/index/gen_index.py:147-154 | the rejection loop ends with a head outside the given group |
| Trie.Join | src/index/gen_index.py:144-159 | one round keeps the blocks partitioned into linked chains and removes one head |
| Trie.Link | src/index/gen_index.py:156-159 | `nextblk[preblk] = ...` and `merge_groups` join two chains into one |
| Trie.Walk | src/index/gen_index.py:161-166 | following `nextblk` from the last head lists the path with its shifts, and `len(ret) == len(blocks)` |
| Trie.Layout | src/index/gen_index.py:186-192 | the layout assertion holds at every step, each block ends up at the offset `uppermap` records, the empty block at 0, and LOWER holds only values of `invdata` |
| Trie.LayoutInvariant | src/index/gen_index.py:188-192 | the overlap a block is placed with already holds its first slots (the assertion on line 190) |
| Trie.MaxKey | src/index/gen_index.py:170 | `max(invdata)`: a key no smaller than any other |
| Trie.BuildTrie | src/index/gen_index.py:170-193 | fails exactly on an empty `invdata`; otherwise the trie looks up every code point to its `invdata` value (none when unmapped), has an empty first block and holds no other values |
| Trie.Lookup | src/index/gen_index.py:309-311 | the two-level lookup only ever answers an entry of LOWER (`Trie.Encodes` requires it to be the `invdata` entry) |
| Trie.LookupBucket | src/index/gen_index.py:309-311 | code point `j` reads its own `invdata` entry from the block of its bucket |
| Trie.MakeMinimalTrie | src/index/gen_index.py:169-198 | fails exactly on an empty `invdata`; all 21 candidates encode `invdata`; the result is none exactly when no candidate fits the limit, and otherwise the first smallest fitting candidate |
| Premap.Premap | src/index/gen_index.py:339-459 | the generator's `premap` for each index: a used `u16` pointer (for euc-kr, one below row 125) gets a key below the image size (`Premap.Agree` ties it to `premap_forward`, `Premap.PremapInjective` makes it one-to-one) |
| Premap.EucKrPremap | src/index/gen_index.py:340-355 | below row 125, the trailing columns 96 and up get the keys below `(125 - 4) * (190 - 96)` and the other columns the keys from there up to the image size |
| Premap.Jis0208Premap | src/index/gen_index.py:412-422 | a kept pointer moves down by at most 3160 to close the gaps |
| Premap.Jis0212Premap | src/index/gen_index.py:453-459 | a kept pointer moves down by at most 742 to close the gaps |
| Premap.Forward | src/index/gen_index.py:359-480 | `premap_forward` stays within `u16`: no subtraction underflows and no product overflows |
| Premap.Backward | src/index/gen_index.py:384-480 | `premap_backward` stays within `u16` |
| Premap.SaturatingAdd | src/index/gen_index.py:447 | `saturating_add` is the sum, or `u16::MAX` when the sum overflows |
| Premap.RoundTrip | src/index/gen_index.py:359-480 | every pointer `premap_forward` keeps lands below the image size, and `premap_backward` gives it back |
| Premap.Dense | src/index/gen_index.py:384-480 | every key below the image size comes from a pointer, so the premapped keys fill `0 .. size - 1` with no gap |
| Premap.ForwardInjective | src/index/gen_index.py:359-480 | two pointers with the same non-`X` premapped key are equal |
| Premap.Agree | src/index/gen_index.py:340-480 | Python `premap` and Rust `premap_forward` agree on every `u16` pointer, `None` matching `X`; the only exception is the euc-kr pointers past row 124 with column 96 or more |
| Premap.EucKrCollision | src/index/gen_index.py:340-355 | the Python euc-kr premap sends pointer `125 * 190 + 96` onto the key of pointer 0 |
| Premap.PremapInjective | src/index/gen_index.py:340-459 | the Python premap is injective on every `u16` pointer for the JIS indexes, and on euc-kr pointers below row 125 |
| Premap.PremapKeys | src/index/gen_index.py:555-560 | for any `premap` and key order, renumbering succeeds exactly when every key premaps to a distinct `u16`; `newdata` then holds every value under its premapped key and nothing else |
| Premap.PremappableIndex | src/index/gen_index.py:555-560 | for keys below `0xFFFF` (and, for euc-kr, below row 125) the renumbering assertion fails exactly when some key lies in a gap |
| RangeIndex.Lookup | src/index/gen_index.py:851-864 | the reference range lookup returns a `u32`; when the offset does not wrap it is at least the selected range's target |
| RangeIndex.LastAtMost | src/index/gen_index.py:851-864 | the reference: the last range start at most the code; on a sorted table the starts at most the code are exactly the ones up to it |
| RangeIndex.MaxLog2 | src/index/gen_index.py:815-817 | `2^maxlog2 <= len(data) < 2^(maxlog2 + 1)` |
| RangeIndex.Search | src/index/gen_index.py:851-864 | the unrolled search never indexes outside the tables, returns a `u32`, and on a sorted table returns the reference lookup |
| RangeIndex.Narrow | src/index/gen_index.py:856-861 | the halving probes end on an index of at least 1, which on a sorted table is the count of starts at most the code |
| RangeIndex.FirstProbe | src/index/gen_index.py:852-855 | the first probe at `2^maxlog2 - 1` narrows the count to a window of `2^maxlog2 - 1` |
| RangeIndex.Halve | src/index/gen_index.py:858 | each probe halves the window holding the count |
| RangeIndex.BuildRangeIndex | src/index/gen_index.py:805-849 | succeeds exactly on non-empty, tuple-sorted data; the tables then start with (0, 0), hold the pairs read in order after at most one extra entry, and have sorted pointers |
| RangeIndex.WithZero | src/index/gen_index.py:813-814 | `(0, 0)` is put in front only when missing, and the order is kept |
| RangeIndex.KeysSorted | src/index/gen_index.py:809 | tuple-sorted pairs have sorted pointers |
| RangeIndex.ForwardOf | src/index/gen_index.py:866-880 | the meaning of `forward`: a `u32`, with no mapping below the smallest pointer and at gb18030's invalid pointers, and 7457 mapping to U+E7C7 |
| RangeIndex.BackwardOf | src/index/gen_index.py:882-895 | the meaning of `backward`: a `u32`, with no mapping below the smallest code point, and U+E7C7 mapping to 7457 |
| RangeIndex.Forward | src/index/gen_index.py:866-880 | `forward` is the range lookup, except below the smallest pointer and at gb18030's invalid pointers and singular mapping |
| RangeIndex.Backward | src/index/gen_index.py:882-895 | `backward` returns a `u32`; when the code points are sorted it is the reverse range lookup with gb18030's singular mapping |
| RangeIndex.Gb18030Special | src/index/gen_index.py:873-877 | gb18030 pointers 39420..188999 and above 1237575 have no code point, and 7457 and U+E7C7 map to each other |
| RangeIndex.GeneratedRoundTrip | src/index/gen_index.py:805-895 | for the tables generated from strictly increasing `u32` ranges, including the `(0, 0)` entry in front and a range that overlaps the next only over rejected pointers: the code points come out sorted, so `backward` is exact, and every pointer is either turned away by `forward` or found again by `backward` |
| RangeIndex.Gb18030Laid | src/index/gen_index.py:811-814 | the round trip's hypothesis holds for gb18030's first ranges and the two around its invalid region, whose tables repeat pointer 0 and whose range at 39394 overlaps the one at 189000 |

## Left out

- Reading the index files (`read_index`), writing the Rust files, and
  the text templating are I/O. Entries are given as a sequence of pairs,
  and the emitted tables as sequences.
- `make_minimal_search` and the multi-byte `forward` and `backward`
  around it (lines 200-237 and 562-802) are not part of this model, apart
  from the premapping and the trie they share. The same goes for the
  Big5/HKSCS adjustments, the jis0208 remap table and the `morebits`
  extension.
- The `multi_byte_range_tests!` and `single_byte_tests!` macros are test
  harnesses defined outside these files.
- The provenance comments of the emitted files (identifier, date) carry
  no behaviour.
- The disjoint-set in `optimize_overlapping_blocks` is modelled as
  quick-find, with each chain's head as its representative. Union by rank
  and path compression only change which element represents a group. The
  code only compares `get_group` results for equality, so those details
  are not modelled.
- The heaps are modelled as sets of block indices with a pop that takes
  the first element in `(-gap, idx)` order. Python's `heapq` pops that
  same element.
- `prevblk` is written but never read, so it is not modelled.
- Trie.OptimizeOverlappingBlocks: the greedy heuristic is not claimed to
  find the shortest layout, and its source does not claim so either.
- SingleByteIndex.GenerateSingleByteIndex: success is stated in one
  direction only. The model proves what is emitted whenever generation
  succeeds. It does not prove that every valid index yields a trie under
  0x10000 entries and a bitmap reaching bit 16. Those depend on the
  actual code points.
- SingleByte.Forward: requires a byte of at least 0x80, and so do
  `Windows1256.Forward` and `Iso885916.Forward`. For a smaller byte the
  emitted `forward(code: u8)` panics: `code - 0x80` underflows in a debug
  build, and in a release build it wraps to an index of 128 or more,
  outside FORWARD_TABLE. That panic is not modelled.
- Premap.Backward: the euc-kr `r * 190 + (c + dc)` is taken modulo
  `2^16`, where a debug build of the Rust would panic. This only happens
  for keys that `premap_forward` never produces (`Premap.Dense` covers
  every produced key).
- RangeIndex.Backward: stated only for sorted code points, because the
  generator checks the order of the pointers only (for ranges as
  `RangeIndex.GeneratedRoundTrip` assumes them, the code points are
  sorted). With unsorted code
  points, `search` still returns a `u32`, but not necessarily the right
  one.
- RangeIndex.Search: `(code - fromtab[i-1]) + totab[i-1]` is modelled
  with `u32` wrap-around, as a release build computes it. For sorted
  tables the subtraction cannot underflow.
- RangeIndex.GeneratedRoundTrip: assumes what the generator does not
  check, namely strictly increasing pointers and code points, each range
  staying below the next one's first code point over the pointers
  `forward` accepts, and U+E7C7 reached only from pointer 7457. The
  generator asserts tuple order only. The ranges file is data, not code,
  so the lemma is stated for any ranges with these properties, and
  `RangeIndex.Gb18030Laid` shows that gb18030's first two ranges and the
  two around its invalid region have them.
- Premap.PremapInjective: for euc-kr it needs both pointers below row 125
  (`125 * 190`). The generator asserts only `key < 0xffff`. Past row 124
  the Python premap is not injective (`Premap.EucKrCollision`), so the
  lemma relies on the euc-kr index having no pointer there.
- Premap.PremappableIndex: needs the same euc-kr row-125 bound on every
  key, for the same reason.
