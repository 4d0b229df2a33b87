/**
 The trie builder of `src/index/gen_index.py` (`make_minimal_trie`,
 `optimize_overlapping_blocks`): a map from code points to pointers is cut
 into blocks of `2^triebits` slots, equal blocks are stored once, the
 all-empty block is not stored at all, and the stored blocks are laid out in
 one LOWER table in an order chosen greedily so that the empty slots at the
 end of one block overlap the empty slots at the start of the next. UPPER
 holds, per bucket, the offset of its block in LOWER.
 */
module Trie {
  import opened Common

  /** One bucket's worth of `invdata.get(j)` values. */
  type Block = seq<Option<nat>>

  /** `invdata.get(j)`. */
  function Get(invdata: map<nat, nat>, j: nat): Option<nat> {
    if j in invdata then Some(invdata[j]) else None
  }

  predicate IsEmpty(blk: Block) {
    forall i | 0 <= i < |blk| :: blk[i].None?
  }

  /** Every value in the slots of `s` is one of `vs`. */
  predicate ValuesIn(s: seq<Option<nat>>, vs: set<nat>) {
    forall i | 0 <= i < |s| && s[i].Some? :: s[i].value in vs
  }

  /** `(None,) * n`. */
  function Nones(n: nat): (r: Block)
    ensures |r| == n && IsEmpty(r)
  {
    seq(n, _ => None)
  }

  lemma EmptyIsNones(blk: Block)
    requires IsEmpty(blk)
    ensures blk == Nones(|blk|)
  {}

  /** The leading gap of a block: the number of empty slots before its first
      value, the whole length for an empty block. */
  function Leading(blk: Block): (n: nat)
    ensures n <= |blk|
    ensures forall i | 0 <= i < n :: blk[i].None?
    ensures n < |blk| ==> blk[n].Some?
  {
    if |blk| == 0 || blk[0].Some? then 0 else 1 + Leading(blk[1..])
  }

  /** The trailing gap: the number of empty slots after its last value. */
  function Trailing(blk: Block): (n: nat)
    ensures n <= |blk|
    ensures forall i | |blk| - n <= i < |blk| :: blk[i].None?
    ensures n < |blk| ==> blk[|blk| - 1 - n].Some?
  {
    if |blk| == 0 || blk[|blk| - 1].Some? then 0 else 1 + Trailing(blk[..|blk| - 1])
  }

  /** In a block with a value, the two gaps leave that value uncovered. */
  lemma GapsFit(blk: Block)
    requires !IsEmpty(blk)
    ensures Leading(blk) + Trailing(blk) < |blk|
  {
    var i :| 0 <= i < |blk| && blk[i].Some?;
    assert Leading(blk) <= i < |blk| - Trailing(blk);
  }

  // ---------------------------------------------------------------------
  // Cutting the code points into blocks (`gen_index.py:173-181`)

  /** The block of bucket `k`: code points `k * size` up to `k * size + size`. */
  function BlockAt(invdata: map<nat, nat>, size: nat, k: nat): (blk: Block)
    ensures |blk| == size
  {
    seq(size, o requires 0 <= o < size => Get(invdata, k * size + o))
  }

  /** The distinct non-empty blocks in order of first appearance, the block
      index of every bucket (-1 for the empty block), and the dictionary
      from block contents to block index. */
  datatype Split = Split(blocks: seq<Block>, upperidx: seq<int>, blockmap: map<Block, int>)

  /** The dictionary answers -1 for the empty block and `i` for block `i`. */
  predicate Indexed(s: Split, size: nat) {
    && Nones(size) in s.blockmap && s.blockmap[Nones(size)] == -1
    && (forall i | 0 <= i < |s.blocks| :: s.blocks[i] in s.blockmap && s.blockmap[s.blocks[i]] == i)
    && (forall b | b in s.blockmap :: b == Nones(size) || (0 <= s.blockmap[b] < |s.blocks| && s.blocks[s.blockmap[b]] == b))
  }

  /** The first `count` buckets, each looked up in the dictionary and added
      to it when new. */
  function SplitBlocks(invdata: map<nat, nat>, size: nat, count: nat): (s: Split)
    ensures |s.upperidx| == count
  {
    if count == 0 then Split([], [], map[Nones(size) := -1])
    else SplitStep(invdata, size, SplitBlocks(invdata, size, count - 1), count - 1)
  }

  /** Bucket `k`: `blockmap.get(tuple(blk))`, and a new block index when the
      contents are new. */
  function SplitStep(invdata: map<nat, nat>, size: nat, s: Split, k: nat): (s': Split)
    ensures |s'.upperidx| == |s.upperidx| + 1
  {
    var blk := BlockAt(invdata, size, k);
    if blk in s.blockmap then
      Split(s.blocks, s.upperidx + [s.blockmap[blk]], s.blockmap)
    else
      Split(s.blocks + [blk], s.upperidx + [|s.blocks|], s.blockmap[blk := |s.blocks|])
  }

  /** What the split promises: every stored block is a non-empty block of
      the bucket size, and every bucket's index names its block, -1 exactly
      for the empty block. */
  predicate SplitOK(invdata: map<nat, nat>, size: nat, s: Split) {
    && Indexed(s, size)
    && (forall i | 0 <= i < |s.blocks| :: |s.blocks[i]| == size && !IsEmpty(s.blocks[i]))
    && (forall k | 0 <= k < |s.upperidx| ::
          if s.upperidx[k] == -1 then IsEmpty(BlockAt(invdata, size, k))
          else 0 <= s.upperidx[k] < |s.blocks| && s.blocks[s.upperidx[k]] == BlockAt(invdata, size, k))
  }

  lemma {:induction false} SplitBlocksCorrect(invdata: map<nat, nat>, size: nat, count: nat)
    ensures SplitOK(invdata, size, SplitBlocks(invdata, size, count))
    decreases count
  {
    if count > 0 {
      var s := SplitBlocks(invdata, size, count - 1);
      SplitBlocksCorrect(invdata, size, count - 1);
      var blk := BlockAt(invdata, size, count - 1);
      if blk in s.blockmap {
        SplitFound(invdata, size, count - 1, s, blk);
      } else {
        SplitNew(invdata, size, count - 1, s, blk);
      }
    }
  }

  lemma SplitFound(invdata: map<nat, nat>, size: nat, k: nat, s: Split, blk: Block)
    requires SplitOK(invdata, size, s) && |s.upperidx| == k
    requires blk == BlockAt(invdata, size, k) && blk in s.blockmap
    ensures SplitOK(invdata, size, Split(s.blocks, s.upperidx + [s.blockmap[blk]], s.blockmap))
  {
    var u := s.upperidx + [s.blockmap[blk]];
    assert forall j | 0 <= j < k :: u[j] == s.upperidx[j];
  }

  lemma SplitNew(invdata: map<nat, nat>, size: nat, k: nat, s: Split, blk: Block)
    requires SplitOK(invdata, size, s) && |s.upperidx| == k
    requires blk == BlockAt(invdata, size, k) && blk !in s.blockmap
    ensures SplitOK(invdata, size, Split(s.blocks + [blk], s.upperidx + [|s.blocks|], s.blockmap[blk := |s.blocks|]))
  {
    var s' := Split(s.blocks + [blk], s.upperidx + [|s.blocks|], s.blockmap[blk := |s.blocks|]);
    if IsEmpty(blk) {
      EmptyIsNones(blk);
    }
    assert forall j | 0 <= j < k :: s'.upperidx[j] == s.upperidx[j];
    assert forall i | 0 <= i < |s.blocks| :: s'.blocks[i] == s.blocks[i];
    assert Indexed(s', size) by {
      forall i | 0 <= i < |s'.blocks|
        ensures s'.blocks[i] in s'.blockmap && s'.blockmap[s'.blocks[i]] == i
      {
        if i < |s.blocks| {
          assert s.blocks[i] in s.blockmap;
        }
      }
    }
  }

  /** Equal blocks are stored once: the stored blocks are pairwise distinct. */
  lemma BlocksDistinct(invdata: map<nat, nat>, size: nat, count: nat)
    ensures var s := SplitBlocks(invdata, size, count);
      forall i, j | 0 <= i < j < |s.blocks| :: s.blocks[i] != s.blocks[j]
  {
    var s := SplitBlocks(invdata, size, count);
    SplitBlocksCorrect(invdata, size, count);
    forall i, j | 0 <= i < j < |s.blocks|
      ensures s.blocks[i] != s.blocks[j]
    {
      assert s.blockmap[s.blocks[i]] == i;
    }
  }

  /** The stored blocks hold only values of `invdata`. */
  lemma {:induction false} BlockValues(invdata: map<nat, nat>, size: nat, count: nat)
    ensures forall i | 0 <= i < |SplitBlocks(invdata, size, count).blocks| ::
      ValuesIn(SplitBlocks(invdata, size, count).blocks[i], invdata.Values)
    decreases count
  {
    if count > 0 {
      BlockValues(invdata, size, count - 1);
      var s := SplitBlocks(invdata, size, count - 1);
      assert forall i | 0 <= i < |s.blocks| :: ValuesIn(s.blocks[i], invdata.Values);
      var blk := BlockAt(invdata, size, count - 1);
      forall o | 0 <= o < size && blk[o].Some?
        ensures blk[o].value in invdata.Values
      {
        var j := (count - 1) * size + o;
        assert blk[o] == Get(invdata, j);
      }
      assert ValuesIn(blk, invdata.Values);
    }
  }

  // ---------------------------------------------------------------------
  // Greedy chaining of the blocks (`gen_index.py:83-166`)

  function Min(a: int, b: int): int {
    if a <= b then a else b
  }

  /** What `optimize_overlapping_blocks` returns: every block index exactly
      once, each with the number of slots it overlaps the layout so far.
      The first block overlaps by its whole leading gap (it follows the
      empty block); every later block by the smaller of its own leading gap
      and the trailing gap of the block before it. */
  predicate Chained(blocks: seq<Block>, ret: seq<(nat, nat)>) {
    && |ret| == |blocks|
    && (forall k | 0 <= k < |ret| :: ret[k].0 < |blocks|)
    && (forall i | 0 <= i < |blocks| :: i in Firsts(ret))
    && (forall a, b | 0 <= a < b < |ret| :: ret[a].0 != ret[b].0)
    && (|ret| > 0 ==> ret[0].1 == Leading(blocks[ret[0].0]))
    && (forall k | 1 <= k < |ret| :: ret[k].1 == Min(Leading(blocks[ret[k].0]), Trailing(blocks[ret[k - 1].0])))
  }

  /** The block indices of a chain. */
  function Firsts(ret: seq<(nat, nat)>): (r: seq<nat>)
    ensures |r| == |ret| && forall k | 0 <= k < |ret| :: r[k] == ret[k].0
  {
    seq(|ret|, k requires 0 <= k < |ret| => ret[k].0)
  }

  /** Heap order of the `(-gap, idx)` pairs: a larger gap first, and among
      equal gaps the smaller block index. */
  predicate Before(x: nat, y: nat, gap: seq<nat>)
    requires x < |gap| && y < |gap|
  {
    gap[x] > gap[y] || (gap[x] == gap[y] && x <= y)
  }

  /** The first element below `m` of a heap in heap order. */
  function BestBelow(heap: set<nat>, gap: seq<nat>, m: nat): (r: Option<nat>)
    requires m <= |gap|
    ensures r.None? ==> forall y | y in heap :: y >= m
    ensures r.Some? ==> r.value in heap && r.value < m
    ensures r.Some? ==> forall y | y in heap && y < m :: Before(r.value, y, gap)
  {
    if m == 0 then None
    else
      var r := BestBelow(heap, gap, m - 1);
      if m - 1 !in heap then r
      else if r.None? || gap[m - 1] > gap[r.value] then Some(m - 1)
      else r
  }

  /** `heappop` (and `heap[0]`): the first element in heap order. */
  function Pop(heap: set<nat>, gap: seq<nat>): (x: nat)
    requires heap != {} && forall y | y in heap :: y < |gap|
    ensures x in heap && x < |gap|
    ensures forall y | y in heap :: Before(x, y, gap)
  {
    var y :| y in heap;
    BestBelow(heap, gap, |gap|).value
  }

  /** The state of the greedy loop: the successor links `nextblk`, the
      contents of the `pregaps` heap (blocks without a predecessor), of the
      `postgaps` heap (blocks without a successor), and the group of every
      block. */
  datatype Greedy = Greedy(next: map<nat, (nat, nat)>, heads: set<nat>, tails: set<nat>, group: seq<nat>)

  function Last(c: seq<nat>): nat
    requires |c| > 0
  {
    c[|c| - 1]
  }

  /** The links of the loop form chains that partition the `n` blocks: one
      chain per element of `heads`, ending at an element of `tails`, and
      every block in the chain of its group. `chain` and `pos` are the
      proof's record of the chains and of every block's place in its
      chain. */
  ghost predicate Forest(n: nat, g: Greedy, pos: seq<nat>, chain: map<nat, seq<nat>>) {
    Covered(n, g, pos, chain) && Ends(g, chain) && Members(n, g, pos, chain) && Links(g, chain) && Tails(n, g, chain)
  }

  /** There is a chain per head, and every block is in the chain of its
      group at its recorded place. */
  ghost predicate Covered(n: nat, g: Greedy, pos: seq<nat>, chain: map<nat, seq<nat>>) {
    && |g.group| == n && |pos| == n && chain.Keys == g.heads
    && forall i | 0 <= i < n :: g.group[i] in chain && pos[i] < |chain[g.group[i]]| && chain[g.group[i]][pos[i]] == i
  }

  /** Every chain starts at its head and ends at an element of `tails`
      without a successor. */
  ghost predicate Ends(g: Greedy, chain: map<nat, seq<nat>>) {
    forall h | h in chain :: |chain[h]| > 0 && chain[h][0] == h && Last(chain[h]) in g.tails && Last(chain[h]) !in g.next
  }

  /** The blocks of a chain are in its group, at their recorded places (so
      no block is in a chain twice). */
  ghost predicate Members(n: nat, g: Greedy, pos: seq<nat>, chain: map<nat, seq<nat>>) {
    && |g.group| == n && |pos| == n
    && forall h, k | h in chain && 0 <= k < |chain[h]| :: chain[h][k] < n && g.group[chain[h][k]] == h && pos[chain[h][k]] == k
  }

  /** Consecutive blocks of a chain are linked by `next`. */
  ghost predicate Links(g: Greedy, chain: map<nat, seq<nat>>) {
    forall h, k | h in chain && 0 <= k < |chain[h]| - 1 :: chain[h][k] in g.next && g.next[chain[h][k]].0 == chain[h][k + 1]
  }

  /** Every element of `tails` ends the chain of its group. */
  ghost predicate Tails(n: nat, g: Greedy, chain: map<nat, seq<nat>>) {
    && |g.group| == n
    && forall x | x in g.tails :: x < n && g.group[x] in chain && |chain[g.group[x]]| > 0 && x == Last(chain[g.group[x]])
  }

  /** Every recorded link overlaps by the smaller of the two gaps it joins. */
  predicate Shifts(next: map<nat, (nat, nat)>, lead: seq<nat>, trail: seq<nat>) {
    forall x | x in next :: x < |trail| && next[x].0 < |lead| && next[x].1 == Min(lead[next[x].0], trail[x])
  }

  /** The greedy algorithm: repeatedly join the block with the largest
      trailing gap to the block with the largest leading gap, skipping a
      join that would close a cycle, until one chain remains; then walk
      that chain from its head. The disjoint-set forest is represented by a
      `group` sequence that maps every block to its chain's head: the code
      only ever compares groups for equality, and the partition it
      maintains is the same. The generator's `assert`s, and `heappop` on an
      empty heap, are proved never to fail; only an empty block, or no block
      at all, is an error. */
  method OptimizeOverlappingBlocks(blocks: seq<Block>) returns (r: Result<seq<(nat, nat)>>)
    ensures r.Success? <==> |blocks| > 0 && forall i | 0 <= i < |blocks| :: !IsEmpty(blocks[i])
    ensures r.Success? ==> Chained(blocks, r.value)
  {
    var n := |blocks|;
    if exists i | 0 <= i < n :: IsEmpty(blocks[i]) {
      return Failure("no empty block allowed");
    }
    if n == 0 {
      return Failure("pregaps[0] of an empty heap");
    }
    var lead := seq(n, i requires 0 <= i < n => Leading(blocks[i]));
    var trail := seq(n, i requires 0 <= i < n => Trailing(blocks[i]));
    var ret := GreedyChain(n, lead, trail);
    return Success(ret);
  }

  /** The loop of `optimize_overlapping_blocks` over the gaps of `n`
      non-empty blocks, and the walk of the one chain it leaves. */
  method GreedyChain(n: nat, lead: seq<nat>, trail: seq<nat>) returns (ret: seq<(nat, nat)>)
    requires n > 0 && |lead| == |trail| == n
    ensures |ret| == n
    ensures forall k | 0 <= k < n :: ret[k].0 < n
    ensures forall i | 0 <= i < n :: i in Firsts(ret)
    ensures forall a, b | 0 <= a < b < n :: ret[a].0 != ret[b].0
    ensures ret[0].1 == lead[ret[0].0]
    ensures forall k | 1 <= k < n :: ret[k].1 == Min(lead[ret[k].0], trail[ret[k - 1].0])
  {
    var next, head;
    ghost var c;
    next, head, c := GreedyLinks(n, lead, trail);
    ret := Walk(n, lead, trail, next, head, c);
    forall i | 0 <= i < n
      ensures i in Firsts(ret)
    {
      assert i in c;
      var k :| 0 <= k < n && c[k] == i;
      assert Firsts(ret)[k] == i;
    }
  }

  /** The `n - 1` rounds of joins; the links they leave form one path
      through all blocks, starting at the last head, `pregaps[0]`. */
  method GreedyLinks(n: nat, lead: seq<nat>, trail: seq<nat>)
    returns (next: map<nat, (nat, nat)>, head: nat, ghost c: seq<nat>)
    requires n > 0 && |lead| == |trail| == n
    ensures Path(c, next, n) && c[0] == head && Shifts(next, lead, trail)
  {
    var g;
    ghost var pos, chain;
    g, pos, chain := Start(n, lead, trail);
    var iter := 0;
    while iter < n - 1
      invariant 0 <= iter <= n - 1
      invariant Forest(n, g, pos, chain) && Shifts(g.next, lead, trail)
      invariant |g.heads| == n - iter
    {
      g, pos, chain := Join(n, lead, trail, g, pos, chain);
      iter := iter + 1;
    }
    next, head, c := Finish(n, lead, trail, g, pos, chain);
  }

  /** Every block its own chain: both heaps full, no links, every block
      its own group. */
  method Start(n: nat, lead: seq<nat>, trail: seq<nat>) returns (g: Greedy, ghost pos: seq<nat>, ghost chain: map<nat, seq<nat>>)
    ensures Forest(n, g, pos, chain) && Shifts(g.next, lead, trail) && |g.heads| == n
  {
    g := Greedy(map[], Range(n), Range(n), seq(n, i => i));
    pos := seq(n, i => 0);
    chain := map h | h in Range(n) :: [h];
    InitForest(n, g, pos, chain);
  }

  /** `pregaps[0]`: the last head, whose chain is the path through all
      blocks. */
  method Finish(n: nat, lead: seq<nat>, trail: seq<nat>, g: Greedy, ghost pos: seq<nat>, ghost chain: map<nat, seq<nat>>)
    returns (next: map<nat, (nat, nat)>, head: nat, ghost c: seq<nat>)
    requires Forest(n, g, pos, chain) && |g.heads| == 1 && |lead| == n
    ensures Path(c, g.next, n) && c[0] == head && next == g.next
  {
    HeadsAndTails(n, g, pos, chain);
    head := Pop(g.heads, lead);
    Singleton(g.heads, head);
    ForestPath(n, g, pos, chain, head);
    next := g.next;
    c := chain[head];
  }

  /** A set of one element holds nothing else. */
  lemma Singleton(s: set<nat>, x: nat)
    requires |s| == 1 && x in s
    ensures s == {x}
  {
    assert |s - {x}| == 0;
  }

  lemma InitForest(n: nat, g: Greedy, pos: seq<nat>, chain: map<nat, seq<nat>>)
    requires g == Greedy(map[], Range(n), Range(n), seq(n, i => i))
    requires pos == seq(n, i => 0) && chain == map h | h in Range(n) :: [h]
    ensures Forest(n, g, pos, chain)
  {
    InitCovered(n, g, pos, chain);
    InitEnds(n, g, pos, chain);
    InitMembers(n, g, pos, chain);
    InitTails(n, g, pos, chain);
    assert forall h | h in chain :: |chain[h]| == 1;
  }

  lemma InitCovered(n: nat, g: Greedy, pos: seq<nat>, chain: map<nat, seq<nat>>)
    requires g == Greedy(map[], Range(n), Range(n), seq(n, i => i))
    requires pos == seq(n, i => 0) && chain == map h | h in Range(n) :: [h]
    ensures Covered(n, g, pos, chain)
  {
    assert chain.Keys == g.heads;
    forall i | 0 <= i < n
      ensures g.group[i] in chain && pos[i] < |chain[g.group[i]]| && chain[g.group[i]][pos[i]] == i
    {
      assert g.group[i] == i && chain[i] == [i];
    }
  }

  lemma InitEnds(n: nat, g: Greedy, pos: seq<nat>, chain: map<nat, seq<nat>>)
    requires g == Greedy(map[], Range(n), Range(n), seq(n, i => i))
    requires chain == map h | h in Range(n) :: [h]
    ensures Ends(g, chain)
  {
    forall h | h in chain
      ensures |chain[h]| > 0 && chain[h][0] == h && Last(chain[h]) in g.tails && Last(chain[h]) !in g.next
    {
      assert chain[h] == [h];
    }
  }

  lemma InitMembers(n: nat, g: Greedy, pos: seq<nat>, chain: map<nat, seq<nat>>)
    requires g == Greedy(map[], Range(n), Range(n), seq(n, i => i))
    requires pos == seq(n, i => 0) && chain == map h | h in Range(n) :: [h]
    ensures Members(n, g, pos, chain)
  {
    forall h, k | h in chain && 0 <= k < |chain[h]|
      ensures chain[h][k] < n && g.group[chain[h][k]] == h && pos[chain[h][k]] == k
    {
      assert chain[h] == [h];
    }
  }

  lemma InitTails(n: nat, g: Greedy, pos: seq<nat>, chain: map<nat, seq<nat>>)
    requires g == Greedy(map[], Range(n), Range(n), seq(n, i => i))
    requires chain == map h | h in Range(n) :: [h]
    ensures Tails(n, g, chain)
  {
    forall x | x in g.tails
      ensures x < n && g.group[x] in chain && |chain[g.group[x]]| > 0 && x == Last(chain[g.group[x]])
    {
      assert g.group[x] == x && chain[x] == [x];
    }
  }

  /** One round of the greedy loop: pop the block with the largest trailing
      gap and the block with the largest leading gap; while the second one
      heads the first one's own chain, set it aside and pop the next; then
      link the two and merge their groups. */
  method Join(n: nat, lead: seq<nat>, trail: seq<nat>, g: Greedy, ghost pos: seq<nat>, ghost chain: map<nat, seq<nat>>)
    returns (g': Greedy, ghost pos': seq<nat>, ghost chain': map<nat, seq<nat>>)
    requires Forest(n, g, pos, chain) && Shifts(g.next, lead, trail)
    requires |lead| == |trail| == n && |g.heads| >= 2
    ensures Forest(n, g', pos', chain') && Shifts(g'.next, lead, trail)
    ensures |g'.heads| == |g.heads| - 1
  {
    HeadsAndTails(n, g, pos, chain);
    var preblk, postblk := Choose(n, lead, trail, g);
    var shift := Min(lead[postblk], trail[preblk]);
    g', pos', chain' := Link(n, g, pos, chain, preblk, postblk, shift);
    ShiftsLink(g.next, lead, trail, preblk, postblk);
  }

  /** A new link overlapping by the smaller gap keeps `Shifts`. */
  lemma ShiftsLink(next: map<nat, (nat, nat)>, lead: seq<nat>, trail: seq<nat>, preblk: nat, postblk: nat)
    requires Shifts(next, lead, trail) && preblk < |trail| && postblk < |lead|
    ensures Shifts(next[preblk := (postblk, Min(lead[postblk], trail[preblk]))], lead, trail)
  {}

  /** The two heap pops of one round, with the rejection of a head that
      would close a cycle. */
  method Choose(n: nat, lead: seq<nat>, trail: seq<nat>, g: Greedy) returns (preblk: nat, postblk: nat)
    requires |lead| == |trail| == |g.group| == n && |g.heads| >= 2 && g.tails != {}
    requires forall h | h in g.heads :: h < n && g.group[h] == h
    requires forall x | x in g.tails :: x < n && x !in g.next
    ensures preblk in g.tails && postblk in g.heads && g.group[preblk] != g.group[postblk]
    ensures preblk !in g.next
  {
    preblk := Pop(g.tails, trail);
    postblk := Pop(g.heads, lead);
    postblk := Reject(n, lead, g, g.group[preblk], postblk);
  }

  /** The rejection loop: while the popped head is in the group of
      `preblk`, set it aside and pop the next one; the heads set aside are
      pushed back afterwards, which leaves the heap as it was but for the
      head finally taken. Only one chain has `pregroup` as its group, so
      the loop pops at most one extra head, and the heap still holds one
      since there are at least two. */
  method Reject(n: nat, lead: seq<nat>, g: Greedy, pregroup: nat, postblk0: nat) returns (postblk: nat)
    requires |lead| == |g.group| == n && |g.heads| >= 2 && postblk0 in g.heads
    requires forall h | h in g.heads :: h < n && g.group[h] == h
    ensures postblk in g.heads && g.group[postblk] != pregroup
  {
    postblk := postblk0;
    var avail := g.heads - {postblk};
    ghost var rejected := false;
    while pregroup == g.group[postblk]
      invariant postblk in g.heads
      invariant !rejected ==> postblk == postblk0 && avail == g.heads - {postblk0}
      invariant rejected ==> g.group[postblk] != pregroup
      decreases if rejected then 0 else 1
    {
      RemoveOne(g.heads, postblk);
      postblk := Pop(avail, lead);
      avail := avail - {postblk};
      rejected := true;
    }
  }

  /** Heads are blocks that are their own group, chain ends have no
      successor, and there is a chain end whenever there is a head. */
  lemma HeadsAndTails(n: nat, g: Greedy, pos: seq<nat>, chain: map<nat, seq<nat>>)
    requires Forest(n, g, pos, chain)
    ensures forall h | h in g.heads :: h < n && g.group[h] == h
    ensures forall x | x in g.tails :: x < n && x !in g.next
    ensures g.heads != {} ==> g.tails != {}
  {
    forall h | h in g.heads
      ensures h < n && g.group[h] == h
    {
      assert chain[h][0] == h;
    }
    forall x | x in g.tails
      ensures x < n && x !in g.next
    {
      assert g.group[x] in chain;
    }
    if g.heads != {} {
      var h :| h in g.heads;
      assert Last(chain[h]) in g.tails;
    }
  }

  /** `nextblk[preblk] = (postblk, shift)` and `merge_groups`. */
  method Link(n: nat, g: Greedy, ghost pos: seq<nat>, ghost chain: map<nat, seq<nat>>, preblk: nat, postblk: nat, shift: nat)
    returns (g': Greedy, ghost pos': seq<nat>, ghost chain': map<nat, seq<nat>>)
    requires Forest(n, g, pos, chain)
    requires preblk in g.tails && postblk in g.heads && g.group[preblk] != g.group[postblk]
    ensures Forest(n, g', pos', chain')
    ensures g'.next == g.next[preblk := (postblk, shift)]
    ensures |g'.heads| == |g.heads| - 1
  {
    var pregroup := g.group[preblk];
    var postgroup := g.group[postblk];
    ghost var len := |chain[pregroup]|;
    g' := Greedy(g.next[preblk := (postblk, shift)], g.heads - {postblk}, g.tails - {preblk},
                 seq(n, i requires 0 <= i < n => if g.group[i] == postgroup then pregroup else g.group[i]));
    pos' := seq(n, i requires 0 <= i < n => if g.group[i] == postgroup then pos[i] + len else pos[i]);
    chain' := (chain - {postblk})[pregroup := chain[pregroup] + chain[postblk]];
    JoinForest(n, g, pos, chain, preblk, postblk, shift, g', pos', chain');
    RemoveOne(g.heads, postblk);
  }

  lemma RemoveOne(s: set<nat>, x: nat)
    requires x in s
    ensures |s - {x}| == |s| - 1
  {}

  /** The state after linking `preblk`, the end of the chain of group
      `hp`, to `postblk`, the head of another chain: the two chains become
      one chain of group `hp`. */
  ghost predicate IsJoin(n: nat, g: Greedy, pos: seq<nat>, chain: map<nat, seq<nat>>, preblk: nat, postblk: nat, shift: nat,
                         hp: nat, g': Greedy, pos': seq<nat>, chain': map<nat, seq<nat>>)
    requires |g.group| == n && |pos| == n && hp in chain && postblk in chain
  {
    && hp != postblk
    && g'.next == g.next[preblk := (postblk, shift)]
    && g'.heads == g.heads - {postblk} && g'.tails == g.tails - {preblk}
    && |g'.group| == n && |pos'| == n
    && (forall i | 0 <= i < n :: g'.group[i] == if g.group[i] == postblk then hp else g.group[i])
    && (forall i | 0 <= i < n :: pos'[i] == if g.group[i] == postblk then pos[i] + |chain[hp]| else pos[i])
    && chain' == (chain - {postblk})[hp := chain[hp] + chain[postblk]]
  }

  /** Linking two chains keeps the partition into chains. */
  lemma JoinForest(n: nat, g: Greedy, pos: seq<nat>, chain: map<nat, seq<nat>>, preblk: nat, postblk: nat, shift: nat,
                   g': Greedy, pos': seq<nat>, chain': map<nat, seq<nat>>)
    requires Forest(n, g, pos, chain) && preblk in g.tails && postblk in g.heads
    requires g.group[preblk] != g.group[postblk]
    requires g'.next == g.next[preblk := (postblk, shift)]
    requires g'.heads == g.heads - {postblk} && g'.tails == g.tails - {preblk}
    requires g'.group == seq(n, i requires 0 <= i < n => if g.group[i] == g.group[postblk] then g.group[preblk] else g.group[i])
    requires pos' == seq(n, i requires 0 <= i < n => if g.group[i] == g.group[postblk] then pos[i] + |chain[g.group[preblk]]| else pos[i])
    requires chain' == (chain - {postblk})[g.group[preblk] := chain[g.group[preblk]] + chain[postblk]]
    ensures Forest(n, g', pos', chain')
  {
    HeadsAndTails(n, g, pos, chain);
    var hp := g.group[preblk];
    assert preblk == Last(chain[hp]);
    assert chain[postblk][0] == postblk;
    assert IsJoin(n, g, pos, chain, preblk, postblk, shift, hp, g', pos', chain');
    JoinCover(n, g, pos, chain, preblk, postblk, shift, hp, g', pos', chain');
    JoinEnds(n, g, pos, chain, preblk, postblk, shift, hp, g', pos', chain');
    JoinMembers(n, g, pos, chain, preblk, postblk, shift, hp, g', pos', chain');
    JoinLinks(n, g, pos, chain, preblk, postblk, shift, hp, g', pos', chain');
    JoinTails(n, g, pos, chain, preblk, postblk, shift, hp, g', pos', chain');
  }

  lemma JoinCover(n: nat, g: Greedy, pos: seq<nat>, chain: map<nat, seq<nat>>, preblk: nat, postblk: nat, shift: nat,
                  hp: nat, g': Greedy, pos': seq<nat>, chain': map<nat, seq<nat>>)
    requires Covered(n, g, pos, chain) && hp in chain && postblk in chain
    requires IsJoin(n, g, pos, chain, preblk, postblk, shift, hp, g', pos', chain')
    ensures Covered(n, g', pos', chain')
  {
    forall i | 0 <= i < n
      ensures g'.group[i] in chain' && pos'[i] < |chain'[g'.group[i]]| && chain'[g'.group[i]][pos'[i]] == i
    {
      if g.group[i] == postblk || g.group[i] == hp {
        assert chain'[hp] == chain[hp] + chain[postblk];
      }
    }
  }

  lemma JoinEnds(n: nat, g: Greedy, pos: seq<nat>, chain: map<nat, seq<nat>>, preblk: nat, postblk: nat, shift: nat,
                 hp: nat, g': Greedy, pos': seq<nat>, chain': map<nat, seq<nat>>)
    requires Ends(g, chain) && Members(n, g, pos, chain) && hp in chain && postblk in chain
    requires |chain[hp]| > 0 && preblk == Last(chain[hp])
    requires IsJoin(n, g, pos, chain, preblk, postblk, shift, hp, g', pos', chain')
    ensures Ends(g', chain')
  {
    forall h | h in chain'
      ensures |chain'[h]| > 0 && chain'[h][0] == h && Last(chain'[h]) in g'.tails && Last(chain'[h]) !in g'.next
    {
      var c := chain[if h == hp then postblk else h];
      assert g.group[c[|c| - 1]] != g.group[preblk] by {
        assert g.group[c[|c| - 1]] == (if h == hp then postblk else h);
        assert g.group[chain[hp][|chain[hp]| - 1]] == hp;
      }
      assert Last(chain'[h]) == c[|c| - 1];
    }
  }

  lemma JoinMembers(n: nat, g: Greedy, pos: seq<nat>, chain: map<nat, seq<nat>>, preblk: nat, postblk: nat, shift: nat,
                    hp: nat, g': Greedy, pos': seq<nat>, chain': map<nat, seq<nat>>)
    requires Members(n, g, pos, chain) && hp in chain && postblk in chain
    requires IsJoin(n, g, pos, chain, preblk, postblk, shift, hp, g', pos', chain')
    ensures Members(n, g', pos', chain')
  {
    var a := chain[hp];
    forall h, k | h in chain' && 0 <= k < |chain'[h]|
      ensures chain'[h][k] < n && g'.group[chain'[h][k]] == h && pos'[chain'[h][k]] == k
    {
      if h == hp && k >= |a| {
        assert chain'[h][k] == chain[postblk][k - |a|];
      }
    }
  }

  lemma JoinLinks(n: nat, g: Greedy, pos: seq<nat>, chain: map<nat, seq<nat>>, preblk: nat, postblk: nat, shift: nat,
                  hp: nat, g': Greedy, pos': seq<nat>, chain': map<nat, seq<nat>>)
    requires Links(g, chain) && Members(n, g, pos, chain) && hp in chain && postblk in chain
    requires |chain[hp]| > 0 && |chain[postblk]| > 0
    requires preblk == Last(chain[hp]) && chain[postblk][0] == postblk
    requires IsJoin(n, g, pos, chain, preblk, postblk, shift, hp, g', pos', chain')
    ensures Links(g', chain')
  {
    var a := chain[hp];
    forall h, k | h in chain' && 0 <= k < |chain'[h]| - 1
      ensures chain'[h][k] in g'.next && g'.next[chain'[h][k]].0 == chain'[h][k + 1]
    {
      if h != hp {
        assert g.group[chain[h][k]] == h;
        assert g.group[a[|a| - 1]] == hp;
      } else if k < |a| - 1 {
        assert pos[a[k]] == k && pos[a[|a| - 1]] == |a| - 1;
      } else if k >= |a| {
        assert chain'[h][k] == chain[postblk][k - |a|];
        assert g.group[chain[postblk][k - |a|]] == postblk;
        assert g.group[a[|a| - 1]] == hp;
      }
    }
  }

  lemma JoinTails(n: nat, g: Greedy, pos: seq<nat>, chain: map<nat, seq<nat>>, preblk: nat, postblk: nat, shift: nat,
                  hp: nat, g': Greedy, pos': seq<nat>, chain': map<nat, seq<nat>>)
    requires Tails(n, g, chain) && |pos| == n && hp in chain && postblk in chain
    requires |chain[hp]| > 0 && preblk == Last(chain[hp])
    requires IsJoin(n, g, pos, chain, preblk, postblk, shift, hp, g', pos', chain')
    ensures Tails(n, g', chain')
  {
    forall x | x in g'.tails
      ensures x < n && g'.group[x] in chain' && |chain'[g'.group[x]]| > 0 && x == Last(chain'[g'.group[x]])
    {
      if g.group[x] == postblk {
        assert chain'[hp] == chain[hp] + chain[postblk];
      }
    }
  }

  /** Once a single head is left, its chain is a path through all blocks. */
  lemma ForestPath(n: nat, g: Greedy, pos: seq<nat>, chain: map<nat, seq<nat>>, h: nat)
    requires Forest(n, g, pos, chain) && g.heads == {h}
    ensures h in chain && chain[h][0] == h && Path(chain[h], g.next, n)
  {
    var c := chain[h];
    SingleChain(n, g, pos, chain, h);
    PermutationLength(c, n);
    assert Last(c) == c[n - 1];
  }

  /** With a single head, its chain holds every block once. */
  lemma SingleChain(n: nat, g: Greedy, pos: seq<nat>, chain: map<nat, seq<nat>>, h: nat)
    requires Covered(n, g, pos, chain) && Members(n, g, pos, chain) && g.heads == {h}
    ensures h in chain
    ensures forall k | 0 <= k < |chain[h]| :: chain[h][k] < n
    ensures forall a, b | 0 <= a < b < |chain[h]| :: chain[h][a] != chain[h][b]
    ensures forall i | 0 <= i < n :: i in chain[h]
  {
    var c := chain[h];
    forall i | 0 <= i < n
      ensures i in c
    {
      assert g.group[i] == h;
      assert c[pos[i]] == i;
    }
    forall a, b | 0 <= a < b < |c|
      ensures c[a] != c[b]
    {
      assert pos[c[a]] == a && pos[c[b]] == b;
    }
  }

  /** A sequence of distinct numbers below `n` that holds each of them has
      length `n`. */
  lemma PermutationLength(c: seq<nat>, n: nat)
    requires forall k | 0 <= k < |c| :: c[k] < n
    requires forall a, b | 0 <= a < b < |c| :: c[a] != c[b]
    requires forall i | 0 <= i < n :: i in c
    ensures |c| == n
  {
    var s := Elems(c);
    forall x: nat
      ensures x in s <==> x in Range(n)
    {
      if x in s {
        var k :| 0 <= k < |c| && c[k] == x;
      }
    }
    assert s == Range(n);
    DistinctCard(c);
  }

  /** `c` lists the `n` blocks once each and follows the links of `next`
      from its first block to its last, which has no successor. */
  predicate Path(c: seq<nat>, next: map<nat, (nat, nat)>, n: nat) {
    && |c| == n > 0
    && (forall k | 0 <= k < n :: c[k] < n)
    && (forall a, b | 0 <= a < b < n :: c[a] != c[b])
    && (forall i | 0 <= i < n :: i in c)
    && (forall k | 0 <= k < n - 1 :: c[k] in next && next[c[k]].0 == c[k + 1])
    && c[n - 1] !in next
  }

  /** The final walk: from the one remaining head, follow (and pop) the
      successor links. */
  method Walk(n: nat, lead: seq<nat>, trail: seq<nat>, next: map<nat, (nat, nat)>, head: nat, ghost c: seq<nat>)
    returns (ret: seq<(nat, nat)>)
    requires Path(c, next, n) && c[0] == head && Shifts(next, lead, trail) && |lead| == |trail| == n
    ensures |ret| == n
    ensures forall k | 0 <= k < n :: ret[k].0 == c[k]
    ensures ret[0].1 == lead[ret[0].0]
    ensures forall k | 1 <= k < n :: ret[k].1 == Min(lead[ret[k].0], trail[ret[k - 1].0])
  {
    var blk := head;
    ghost var k := 0;
    ret := [(blk, lead[blk])];
    var links: map<nat, (nat, nat)> := next;
    while blk in links
      invariant 0 <= k < n && blk == c[k] && |ret| == k + 1
      invariant forall j | 0 <= j <= k :: ret[j].0 == c[j]
      invariant ret[0].1 == lead[c[0]]
      invariant forall j | 1 <= j <= k :: ret[j].1 == Min(lead[c[j]], trail[c[j - 1]])
      invariant Remaining(c, next, n, k, links)
      decreases n - k
    {
      RemainingStep(c, next, n, k, links);
      var (succ, shift) := links[blk];
      links := links - {blk};
      blk := succ;
      k := k + 1;
      ret := ret + [(blk, shift)];
    }
  }

  /** The links the walk has not popped yet: those of `next` from the
      `k`-th block of the path on. */
  predicate Remaining(c: seq<nat>, next: map<nat, (nat, nat)>, n: nat, k: nat, links: map<nat, (nat, nat)>)
    requires |c| == n
  {
    && (forall x | x in links :: x in next && links[x] == next[x])
    && (forall j | k <= j < n - 1 :: c[j] in links)
  }

  /** Popping the link of the `k`-th block leaves those of the later ones,
      since the path does not return to it. */
  lemma RemainingStep(c: seq<nat>, next: map<nat, (nat, nat)>, n: nat, k: nat, links: map<nat, (nat, nat)>)
    requires Path(c, next, n) && k < n && Remaining(c, next, n, k, links)
    ensures c[k] in links ==> k < n - 1 && Remaining(c, next, n, k + 1, links - {c[k]})
  {}

  /** The blocks a sequence lists. */
  function Elems(c: seq<nat>): set<nat> {
    set x | x in c
  }

  /** A sequence without repeats has as many elements as its set. */
  lemma {:induction false} DistinctCard(c: seq<nat>)
    requires forall a, b | 0 <= a < b < |c| :: c[a] != c[b]
    ensures |Elems(c)| == |c|
    decreases |c|
  {
    if |c| > 0 {
      var init, last := c[..|c| - 1], c[|c| - 1];
      DistinctCard(init);
      assert Elems(c) == Elems(init) + {last};
      assert last !in Elems(init);
    } else {
      assert Elems(c) == {};
    }
  }

  // ---------------------------------------------------------------------
  // Laying the chain out in LOWER (`gen_index.py:183-191`)

  /** `blk` sits in `lower` at offset `off`. */
  predicate At(lower: seq<Option<nat>>, off: nat, blk: Block) {
    off + |blk| <= |lower| && lower[off..off + |blk|] == blk
  }

  /** What the layout promises: LOWER starts with one empty block, the
      empty block (index -1) sits at offset 0, and every stored block sits
      at the offset `uppermap` records for it. */
  predicate Placed(blocks: seq<Block>, size: nat, lower: seq<Option<nat>>, uppermap: map<int, nat>) {
    && size <= |lower| && IsEmpty(lower[..size])
    && -1 in uppermap && uppermap[-1] == 0
    && forall i | 0 <= i < |blocks| :: i in uppermap && At(lower, uppermap[i], blocks[i])
  }

  /** The layout loop: every block of the chain is appended without the
      `shift` slots it overlaps with the end of LOWER. The generator's
      `assert` that the overlapped slots agree (both empty) is proved to
      hold. */
  method Layout(blocks: seq<Block>, size: nat, ret: seq<(nat, nat)>, ghost vs: set<nat>) returns (lower: seq<Option<nat>>, uppermap: map<int, nat>)
    requires forall i | 0 <= i < |blocks| :: |blocks[i]| == size && !IsEmpty(blocks[i]) && ValuesIn(blocks[i], vs)
    requires Chained(blocks, ret)
    ensures Placed(blocks, size, lower, uppermap)
    ensures ValuesIn(lower, vs)
  {
    lower := Nones(size);
    uppermap := map[-1 := 0];
    for t := 0 to |ret|
      invariant LaidOut(blocks, size, ret, t, lower, uppermap)
      invariant ValuesIn(lower, vs)
    {
      var idx, shift := ret[t].0, ret[t].1;
      var blk := blocks[idx];
      LayoutInvariant(blocks, size, ret, t, lower, uppermap);
      assert shift == 0 || lower[|lower| - shift..] == blk[..shift];
      uppermap := uppermap[idx := |lower| - shift];
      ValuesAppend(lower, blk, shift, vs);
      lower := lower + blk[shift..];
    }
    LaidOutAll(blocks, size, ret, lower, uppermap);
  }

  /** The layout after the first `t` blocks of the chain: LOWER still starts
      with the empty block, the first `t` blocks sit at their offsets, and
      LOWER ends with the trailing gap of the last block placed (all of
      LOWER is empty before the first). */
  predicate LaidOut(blocks: seq<Block>, size: nat, ret: seq<(nat, nat)>, t: nat, lower: seq<Option<nat>>, uppermap: map<int, nat>)
    requires t <= |ret| && forall k | 0 <= k < |ret| :: ret[k].0 < |blocks|
  {
    && size <= |lower| && lower[..size] == Nones(size)
    && -1 in uppermap && uppermap[-1] == 0
    && (forall k | 0 <= k < t :: ret[k].0 in uppermap && At(lower, uppermap[ret[k].0], blocks[ret[k].0]))
    && (t == 0 ==> IsEmpty(lower))
    && (t > 0 ==> EmptyTail(lower, Trailing(blocks[ret[t - 1].0])))
  }

  /** One round of the layout loop keeps `LaidOut`, and the generator's
      overlap `assert` holds in it. */
  lemma LayoutInvariant(blocks: seq<Block>, size: nat, ret: seq<(nat, nat)>, t: nat, lower: seq<Option<nat>>, uppermap: map<int, nat>)
    requires forall i | 0 <= i < |blocks| :: |blocks[i]| == size && !IsEmpty(blocks[i])
    requires Chained(blocks, ret) && t < |ret|
    requires LaidOut(blocks, size, ret, t, lower, uppermap)
    ensures ret[t].1 <= |lower| && ret[t].1 <= |blocks[ret[t].0]|
    ensures ret[t].1 == 0 || lower[|lower| - ret[t].1..] == blocks[ret[t].0][..ret[t].1]
    ensures LaidOut(blocks, size, ret, t + 1, lower + blocks[ret[t].0][ret[t].1..], uppermap[ret[t].0 := |lower| - ret[t].1])
  {
    var blk := blocks[ret[t].0];
    var shift := ret[t].1;
    assert shift <= Leading(blk);
    if t == 0 {
      assert EmptyTail(lower, shift);
    } else {
      assert EmptyTail(lower, shift);
    }
    EmptyTailNones(lower, shift);
    assert forall k | 0 <= k < t :: ret[k].0 != ret[t].0;
    LayoutKeeps(blocks, size, ret, t, lower, uppermap);
  }

  /** Appending the next block keeps the blocks placed so far, places the
      new one, and leaves its trailing gap as the empty tail. */
  lemma LayoutKeeps(blocks: seq<Block>, size: nat, ret: seq<(nat, nat)>, t: nat, lower: seq<Option<nat>>, uppermap: map<int, nat>)
    requires t < |ret| && forall k | 0 <= k < |ret| :: ret[k].0 < |blocks|
    requires LaidOut(blocks, size, ret, t, lower, uppermap)
    requires forall k | 0 <= k < t :: ret[k].0 != ret[t].0
    requires !IsEmpty(blocks[ret[t].0]) && ret[t].1 <= Leading(blocks[ret[t].0]) && ret[t].1 <= |lower|
    requires ret[t].1 == 0 || lower[|lower| - ret[t].1..] == blocks[ret[t].0][..ret[t].1]
    ensures LaidOut(blocks, size, ret, t + 1, lower + blocks[ret[t].0][ret[t].1..], uppermap[ret[t].0 := |lower| - ret[t].1])
  {
    var idx, shift := ret[t].0, ret[t].1;
    var blk := blocks[idx];
    var lower', uppermap' := lower + blk[shift..], uppermap[idx := |lower| - shift];
    assert At(lower', |lower| - shift, blk) && EmptyTail(lower', Trailing(blk)) by {
      LayoutStep(lower, blk, shift);
    }
    KeepsPlaced(blocks, ret, t, lower, uppermap, blk[shift..]);
    assert lower'[..size] == Nones(size) by {
      assert lower'[..size] == lower[..size];
    }
  }

  /** The blocks placed before round `t` stay placed when LOWER grows and
      the new block gets its offset. */
  lemma KeepsPlaced(blocks: seq<Block>, ret: seq<(nat, nat)>, t: nat, lower: seq<Option<nat>>, uppermap: map<int, nat>, more: seq<Option<nat>>)
    requires t < |ret| && forall k | 0 <= k < |ret| :: ret[k].0 < |blocks|
    requires forall k | 0 <= k < t :: ret[k].0 != ret[t].0
    requires forall k | 0 <= k < t :: ret[k].0 in uppermap && At(lower, uppermap[ret[k].0], blocks[ret[k].0])
    requires ret[t].1 <= |lower| && At(lower + more, |lower| - ret[t].1, blocks[ret[t].0])
    ensures var uppermap' := uppermap[ret[t].0 := |lower| - ret[t].1];
      forall k | 0 <= k < t + 1 :: ret[k].0 in uppermap' && At(lower + more, uppermap'[ret[k].0], blocks[ret[k].0])
  {
    forall k | 0 <= k < t
      ensures At(lower + more, uppermap[ret[k].0], blocks[ret[k].0])
    {
      AtAppend(lower, uppermap[ret[k].0], blocks[ret[k].0], more);
    }
  }

  lemma LaidOutAll(blocks: seq<Block>, size: nat, ret: seq<(nat, nat)>, lower: seq<Option<nat>>, uppermap: map<int, nat>)
    requires Chained(blocks, ret) && LaidOut(blocks, size, ret, |ret|, lower, uppermap)
    ensures Placed(blocks, size, lower, uppermap)
  {
    forall i | 0 <= i < |blocks|
      ensures i in uppermap && At(lower, uppermap[i], blocks[i])
    {
      assert i in Firsts(ret);
      var k :| 0 <= k < |ret| && Firsts(ret)[k] == i;
      assert ret[k].0 == i;
    }
  }

  /** The last `m` slots of `lower` are empty. */
  predicate EmptyTail(lower: seq<Option<nat>>, m: nat) {
    m <= |lower| && forall i | |lower| - m <= i < |lower| :: lower[i].None?
  }

  lemma EmptyTailNones(lower: seq<Option<nat>>, m: nat)
    requires EmptyTail(lower, m)
    ensures lower[|lower| - m..] == Nones(m)
  {}

  /** Appending the part of a block past its overlap places the whole
      block at `|lower| - shift`, and leaves the block's trailing gap as the
      new empty tail. */
  lemma LayoutStep(lower: seq<Option<nat>>, blk: Block, shift: nat)
    requires !IsEmpty(blk) && shift <= Leading(blk) && shift <= |lower|
    requires shift == 0 || lower[|lower| - shift..] == blk[..shift]
    ensures At(lower + blk[shift..], |lower| - shift, blk)
    ensures EmptyTail(lower + blk[shift..], Trailing(blk))
  {
    AppendPlaces(lower, blk, shift);
    AppendTail(lower, blk, shift);
  }

  lemma AppendPlaces(lower: seq<Option<nat>>, blk: Block, shift: nat)
    requires shift <= |blk| && shift <= |lower|
    requires shift == 0 || lower[|lower| - shift..] == blk[..shift]
    ensures At(lower + blk[shift..], |lower| - shift, blk)
  {
    var l' := lower + blk[shift..];
    var off := |lower| - shift;
    assert l'[off..off + |blk|] == lower[off..] + blk[shift..];
    if shift > 0 {
      assert blk == blk[..shift] + blk[shift..];
    }
  }

  lemma AppendTail(lower: seq<Option<nat>>, blk: Block, shift: nat)
    requires !IsEmpty(blk) && shift <= Leading(blk)
    ensures EmptyTail(lower + blk[shift..], Trailing(blk))
  {
    var l' := lower + blk[shift..];
    GapsFit(blk);
    forall i | |l'| - Trailing(blk) <= i < |l'|
      ensures l'[i].None?
    {
      assert l'[i] == blk[i - |lower| + shift];
    }
  }

  lemma ValuesAppend(lower: seq<Option<nat>>, blk: Block, shift: nat, vs: set<nat>)
    requires ValuesIn(lower, vs) && ValuesIn(blk, vs) && shift <= |blk|
    ensures ValuesIn(lower + blk[shift..], vs)
  {
    var l' := lower + blk[shift..];
    forall i | 0 <= i < |l'| && l'[i].Some?
      ensures l'[i].value in vs
    {
      if i >= |lower| {
        assert l'[i] == blk[i - |lower| + shift];
      }
    }
  }

  /** Appending keeps every placed block where it is. */
  lemma AtAppend(lower: seq<Option<nat>>, off: nat, blk: Block, more: seq<Option<nat>>)
    requires At(lower, off, blk)
    ensures At(lower + more, off, blk)
  {
    assert (lower + more)[off..off + |blk|] == lower[off..off + |blk|];
  }

  // ---------------------------------------------------------------------
  // The trie for one `triebits` and the choice among them
  // (`gen_index.py:168-198`)

  /** A two-level trie: UPPER holds per bucket of `2^triebits` code points
      the offset of its block in LOWER. */
  datatype TwoLevel = TwoLevel(triebits: nat, lower: seq<Option<nat>>, upper: seq<nat>)

  /** Every read the lookup makes is in bounds: LOWER holds the block at
      offset 0 and every block UPPER points at. */
  predicate WellFormed(t: TwoLevel) {
    && Pow2(t.triebits) <= |t.lower|
    && forall k | 0 <= k < |t.upper| :: t.upper[k] + Pow2(t.triebits) <= |t.lower|
  }

  /** The lookup the emitted code performs: `offset = j >> triebits`, the
      UPPER entry when `offset` is in range and 0 otherwise, then
      `lower[base + (j & mask)]`. */
  function Lookup(t: TwoLevel, j: nat): (r: Option<nat>)
    requires WellFormed(t)
    ensures r in t.lower
  {
    ShrMask(j, t.triebits);
    var k := Shr(j, t.triebits);
    var base := if k < |t.upper| then t.upper[k] else 0;
    t.lower[base + Mask(j, t.triebits)]
  }

  /** The trie is a faithful encoding of `invdata`: every code point, in
      range or not, looks up its value, or nothing when unmapped; LOWER
      starts with an empty block, so offset 0 is a real all-empty block;
      and LOWER holds no value that is not in `invdata`. */
  ghost predicate Encodes(invdata: map<nat, nat>, t: TwoLevel) {
    && WellFormed(t)
    && IsEmpty(t.lower[..Pow2(t.triebits)])
    && ValuesIn(t.lower, invdata.Values)
    && forall j: nat :: Lookup(t, j) == Get(invdata, j)
  }

  /** `max(invdata)`: the largest key. */
  method MaxKey(invdata: map<nat, nat>) returns (m: nat)
    requires |invdata| > 0
    ensures m in invdata && forall k | k in invdata :: k <= m
  {
    var rest := invdata.Keys;
    m :| m in rest;
    rest := rest - {m};
    while rest != {}
      invariant rest <= invdata.Keys && m in invdata
      invariant forall k | k in invdata && k !in rest :: k <= m
      decreases |rest|
    {
      var k :| k in rest;
      if k > m {
        m := k;
      }
      rest := rest - {k};
    }
  }

  /** One round of `make_minimal_trie`: split the code points below
      `max(invdata) + 1` into blocks of `2^triebits`, chain and lay out the
      distinct non-empty ones, and map every bucket to its block's offset
      (the empty block's is 0). `max` of an empty map is the only failure. */
  method BuildTrie(invdata: map<nat, nat>, triebits: nat) returns (r: Result<TwoLevel>)
    ensures r.Success? <==> |invdata| > 0
    ensures r.Success? ==> r.value.triebits == triebits && Encodes(invdata, r.value)
  {
    if |invdata| == 0 {
      return Failure("max() arg is an empty sequence");
    }
    var maxkey := MaxKey(invdata);
    var size := Pow2(triebits);
    var count := (maxkey + 1 + size - 1) / size;
    var s := SplitBlocks(invdata, size, count);
    SplitBlocksCorrect(invdata, size, count);
    SomeBlock(invdata, size, count, s, maxkey);
    BlocksReady(invdata, size, count, s);
    var chain := OptimizeOverlappingBlocks(s.blocks);
    var lower, uppermap := Layout(s.blocks, size, chain.value, invdata.Values);
    var upper := seq(count, k requires 0 <= k < count => uppermap[s.upperidx[k]]);
    var t := TwoLevel(triebits, lower, upper);
    TrieEncodes(invdata, triebits, count, maxkey, s, lower, uppermap, t);
    return Success(t);
  }

  /** The stored blocks are what the chaining and the layout need. */
  lemma BlocksReady(invdata: map<nat, nat>, size: nat, count: nat, s: Split)
    requires s == SplitBlocks(invdata, size, count)
    ensures forall i | 0 <= i < |s.blocks| :: |s.blocks[i]| == size && !IsEmpty(s.blocks[i]) && ValuesIn(s.blocks[i], invdata.Values)
  {
    SplitBlocksCorrect(invdata, size, count);
    BlockValues(invdata, size, count);
  }

  /** The bucket of the largest key holds a value, so there is at least one
      block to chain, and the buckets cover every key. */
  lemma SomeBlock(invdata: map<nat, nat>, size: nat, count: nat, s: Split, maxkey: nat)
    requires size > 0 && count == (maxkey + 1 + size - 1) / size && maxkey in invdata
    requires SplitOK(invdata, size, s) && |s.upperidx| == count
    ensures |s.blocks| > 0
  {
    var k, o := maxkey / size, maxkey % size;
    assert k * size <= maxkey;
    assert k < count by {
      DivModUnique(maxkey + size, size, k + 1, o);
    }
    assert BlockAt(invdata, size, k)[o] == Get(invdata, maxkey);
  }

  /** The assembled trie encodes `invdata`. */
  lemma TrieEncodes(invdata: map<nat, nat>, triebits: nat, count: nat, maxkey: nat, s: Split,
                    lower: seq<Option<nat>>, uppermap: map<int, nat>, t: TwoLevel)
    requires count == (maxkey + 1 + Pow2(triebits) - 1) / Pow2(triebits) && forall k | k in invdata :: k <= maxkey
    requires SplitOK(invdata, Pow2(triebits), s) && |s.upperidx| == count
    requires Placed(s.blocks, Pow2(triebits), lower, uppermap) && ValuesIn(lower, invdata.Values)
    requires t.triebits == triebits && t.lower == lower && |t.upper| == count
    requires forall k | 0 <= k < count :: s.upperidx[k] in uppermap && t.upper[k] == uppermap[s.upperidx[k]]
    ensures Encodes(invdata, t)
  {
    var size := Pow2(triebits);
    forall k | 0 <= k < count
      ensures t.upper[k] + size <= |lower|
    {
      if s.upperidx[k] != -1 {
        assert At(lower, uppermap[s.upperidx[k]], s.blocks[s.upperidx[k]]);
      }
    }
    assert WellFormed(t);
    forall j: nat
      ensures Lookup(t, j) == Get(invdata, j)
    {
      LookupBucket(invdata, triebits, count, maxkey, s, lower, uppermap, t, j);
    }
  }

  /** Code point `j` reads its value from the block of its bucket, or from
      the empty block at offset 0. */
  lemma LookupBucket(invdata: map<nat, nat>, triebits: nat, count: nat, maxkey: nat, s: Split,
                     lower: seq<Option<nat>>, uppermap: map<int, nat>, t: TwoLevel, j: nat)
    requires count == (maxkey + 1 + Pow2(triebits) - 1) / Pow2(triebits) && forall k | k in invdata :: k <= maxkey
    requires SplitOK(invdata, Pow2(triebits), s) && |s.upperidx| == count
    requires Placed(s.blocks, Pow2(triebits), lower, uppermap)
    requires t.triebits == triebits && t.lower == lower && |t.upper| == count && WellFormed(t)
    requires forall k | 0 <= k < count :: s.upperidx[k] in uppermap && t.upper[k] == uppermap[s.upperidx[k]]
    ensures Lookup(t, j) == Get(invdata, j)
  {
    var size := Pow2(triebits);
    var k := Shr(j, triebits);
    EmptyFirst(lower, size);
    if k < count {
      var idx := s.upperidx[k];
      var blk := BlockAt(invdata, size, k);
      if idx == -1 {
        EmptyIsNones(blk);
        LookupVia(t, j, 0, Nones(size));
        BlockSlot(invdata, triebits, j, Nones(size));
      } else {
        assert s.blocks[idx] == blk;
        LookupVia(t, j, uppermap[idx], blk);
        BlockSlot(invdata, triebits, j, blk);
      }
    } else {
      ShrMask(j, triebits);
      Beyond(maxkey, size, count, k, j);
      LookupVia(t, j, 0, Nones(size));
    }
  }

  /** The lookup of `j` reads slot `j & mask` of the block at its base. */
  lemma LookupVia(t: TwoLevel, j: nat, off: nat, blk: Block)
    requires WellFormed(t) && |blk| == Pow2(t.triebits) && At(t.lower, off, blk)
    requires off == if Shr(j, t.triebits) < |t.upper| then t.upper[Shr(j, t.triebits)] else 0
    ensures Mask(j, t.triebits) < |blk| && Lookup(t, j) == blk[Mask(j, t.triebits)]
  {
    ShrMask(j, t.triebits);
    AtSlot(t.lower, off, blk, Mask(j, t.triebits));
  }

  /** Slot `j & mask` of the block of bucket `j >> triebits` is `j`'s value. */
  lemma BlockSlot(invdata: map<nat, nat>, triebits: nat, j: nat, blk: Block)
    requires blk == BlockAt(invdata, Pow2(triebits), Shr(j, triebits))
    ensures Mask(j, triebits) < |blk| && blk[Mask(j, triebits)] == Get(invdata, j)
  {
    ShrMask(j, triebits);
  }

  lemma EmptyFirst(lower: seq<Option<nat>>, size: nat)
    requires size <= |lower| && IsEmpty(lower[..size])
    ensures At(lower, 0, Nones(size))
  {
    EmptyIsNones(lower[..size]);
  }

  lemma EmptySlot(lower: seq<Option<nat>>, size: nat, o: nat)
    requires size <= |lower| && IsEmpty(lower[..size]) && o < size
    ensures lower[o].None?
  {
    assert lower[..size][o] == lower[o];
  }

  lemma AtSlot(lower: seq<Option<nat>>, off: nat, blk: Block, o: nat)
    requires At(lower, off, blk) && o < |blk|
    ensures lower[off + o] == blk[o]
  {
    assert lower[off..off + |blk|][o] == lower[off + o];
  }

  /** A code point past the last bucket is past every key. */
  lemma Beyond(maxkey: nat, size: nat, count: nat, k: nat, j: nat)
    requires size > 0 && count == (maxkey + 1 + size - 1) / size
    requires k >= count && j >= k * size
    ensures j > maxkey
  {
    MulMono(count, k, size);
    var q, m := (maxkey + size) / size, (maxkey + size) % size;
    assert maxkey + size == q * size + m;
  }

  /** The table size the choice minimises: `len(lower) + len(upper)`. */
  function Size(t: TwoLevel): nat {
    |t.lower| + |t.upper|
  }

  /** A trie the choice may take: LOWER under the limit, and smaller than
      the initial `best` of `0xffffffff`. */
  predicate Eligible(t: TwoLevel, lowerlimit: int) {
    |t.lower| < lowerlimit && Size(t) < 0xffff_ffff
  }

  /** `make_minimal_trie`: build the trie for every `triebits` from 0 to 20
      (returned as `candidates`, each a faithful encoding) and keep the
      smallest eligible one, the first on a tie, or none when no candidate
      is eligible. */
  method MakeMinimalTrie(invdata: map<nat, nat>, lowerlimit: int) returns (r: Result<Option<TwoLevel>>, candidates: seq<TwoLevel>)
    ensures r.Success? <==> |invdata| > 0
    ensures r.Success? ==> |candidates| == 21
    ensures r.Success? ==> forall t | 0 <= t < |candidates| ::
      candidates[t].triebits == t && Encodes(invdata, candidates[t])
    ensures r.Success? ==> (r.value.None? <==> forall t | 0 <= t < |candidates| :: !Eligible(candidates[t], lowerlimit))
    ensures r.Success? && r.value.Some? ==>
      && Eligible(r.value.value, lowerlimit)
      && (exists t | 0 <= t < |candidates| :: candidates[t] == r.value.value
            && forall u | 0 <= u < t :: Eligible(candidates[u], lowerlimit) ==> Size(candidates[u]) > Size(candidates[t]))
      && forall t | 0 <= t < |candidates| && Eligible(candidates[t], lowerlimit) :: Size(r.value.value) <= Size(candidates[t])
  {
    candidates := [];
    if |invdata| == 0 {
      return Failure("max() arg is an empty sequence"), candidates;
    }
    var best := 0xffff_ffff;
    var besttrie: Option<TwoLevel> := None;
    ghost var chosen := 0;
    for triebits := 0 to 21
      invariant |candidates| == triebits
      invariant forall t | 0 <= t < triebits :: candidates[t].triebits == t && Encodes(invdata, candidates[t])
      invariant besttrie.None? ==> best == 0xffff_ffff && forall t | 0 <= t < triebits :: !Eligible(candidates[t], lowerlimit)
      invariant besttrie.Some? ==> Eligible(besttrie.value, lowerlimit) && Size(besttrie.value) == best
      invariant besttrie.Some? ==> chosen < triebits && candidates[chosen] == besttrie.value
      invariant besttrie.Some? ==> forall u | 0 <= u < chosen :: Eligible(candidates[u], lowerlimit) ==> Size(candidates[u]) > best
      invariant besttrie.Some? ==> forall t | 0 <= t < triebits && Eligible(candidates[t], lowerlimit) :: best <= Size(candidates[t])
    {
      var t := BuildTrie(invdata, triebits);
      var trie := t.value;
      if |trie.lower| < lowerlimit && best > |trie.lower| + |trie.upper| {
        best := |trie.lower| + |trie.upper|;
        besttrie := Some(trie);
        chosen := triebits;
      }
      candidates := candidates + [trie];
    }
    return Success(besttrie), candidates;
  }
}
