/**
 * `MemPool<objSize>` (src/mempool.h): blocks of one size, the free list threaded through the free
 * blocks themselves, chunks threaded through their own headers.  Memory is a map from byte addresses;
 * a stored pointer occupies eight bytes, so a write anywhere into them destroys it.
 */
module MemPools {
  import opened Seqs

  /** sizeof(MemBlockNode) */
  const WORD: nat := 8

  /** parameter::memPoolMallocObjCnt */
  const FIRST: nat := 40

  /** One byte: the k-th of a stored pointer, or anything else. */
  datatype Byte = Part(ptr: nat, k: nat) | Data(value: int)

  type Memory = map<nat, Byte>

  predicate Mapped(mem: Memory, x: nat, n: nat) {
    forall j :: x <= j < x + n ==> j in mem
  }

  /** The word at `x` is the pointer `v`. */
  predicate Holds(mem: Memory, x: nat, v: nat) {
    forall j :: x <= j < x + WORD ==> j in mem && mem[j] == Part(v, j - x)
  }

  function Load(mem: Memory, x: nat): (v: nat)
    requires Mapped(mem, x, WORD)
    ensures forall u :: Holds(mem, x, u) ==> v == u
  {
    assert forall u :: Holds(mem, x, u) ==> mem[x] == Part(u, 0);
    if mem[x].Part? then mem[x].ptr else 0
  }

  function Store(mem: Memory, x: nat, v: nat): (r: Memory)
    requires Mapped(mem, x, WORD)
    ensures Holds(r, x, v) && r.Keys == mem.Keys
    ensures forall j :: j in mem && !(x <= j < x + WORD) ==> r[j] == mem[j]
  {
    map j | j in mem :: if x <= j < x + WORD then Part(v, j - x) else mem[j]
  }

  // ---- a list threaded through memory ----

  function HeadOf(nodes: seq<nat>): nat {
    if nodes == [] then 0 else nodes[0]
  }

  /** Node `i` is not null and its link word leads to the next node, or is null at the end. */
  ghost predicate LinkAt(mem: Memory, nodes: seq<nat>, i: nat)
    requires i < |nodes|
  {
    nodes[i] != 0 && Holds(mem, nodes[i], if i + 1 < |nodes| then nodes[i + 1] else 0)
  }

  /** `head` starts a null-terminated list through `nodes`. */
  ghost predicate Chain(mem: Memory, head: nat, nodes: seq<nat>) {
    && head == HeadOf(nodes)
    && forall i {:trigger LinkAt(mem, nodes, i)} :: 0 <= i < |nodes| ==> LinkAt(mem, nodes, i)
  }

  /** Whatever happens to the bytes from `p` to `p + n`, a list whose nodes lie elsewhere stays. */
  lemma ChainKeptOutside(mem: Memory, mem': Memory, head: nat, nodes: seq<nat>, p: nat, n: nat)
    requires Chain(mem, head, nodes)
    requires forall j :: j in mem && !(p <= j < p + n) ==> j in mem' && mem'[j] == mem[j]
    requires forall i :: 0 <= i < |nodes| ==> nodes[i] + WORD <= p || p + n <= nodes[i]
    ensures Chain(mem', head, nodes)
  {
    forall i | 0 <= i < |nodes| ensures LinkAt(mem', nodes, i) { assert LinkAt(mem, nodes, i); }
  }

  lemma NullHeadMeansEmpty(mem: Memory, head: nat, nodes: seq<nat>)
    requires Chain(mem, head, nodes)
    ensures head == 0 <==> nodes == []
  {
    if nodes != [] { assert LinkAt(mem, nodes, 0); }
  }

  lemma ChainTail(mem: Memory, nodes: seq<nat>)
    requires nodes != [] && Chain(mem, nodes[0], nodes)
    ensures Chain(mem, HeadOf(nodes[1..]), nodes[1..]) && Holds(mem, nodes[0], HeadOf(nodes[1..]))
  {
    assert LinkAt(mem, nodes, 0);
    forall i | 0 <= i < |nodes| - 1 ensures LinkAt(mem, nodes[1..], i) { assert LinkAt(mem, nodes, i + 1); }
  }

  /** Writing the old head into a node outside the list and making it the head pushes it. */
  lemma ChainPush(mem: Memory, head: nat, nodes: seq<nat>, x: nat)
    requires Chain(mem, head, nodes) && x != 0 && Mapped(mem, x, WORD)
    requires forall i :: 0 <= i < |nodes| ==> nodes[i] + WORD <= x || x + WORD <= nodes[i]
    ensures Chain(Store(mem, x, head), x, [x] + nodes)
  {
    var mem' := Store(mem, x, head);
    ChainKeptOutside(mem, mem', head, nodes, x, WORD);
    forall i | 0 <= i < |nodes| + 1 ensures LinkAt(mem', [x] + nodes, i) {
      if i > 0 { assert LinkAt(mem', nodes, i - 1); }
    }
  }

  // ---- how many blocks ----

  /** Blocks carved by the first `k` mallocs: 40, 41, 42, ... */
  function Capacity(k: nat): nat {
    if k == 0 then 0 else Capacity(k - 1) + FIRST + (k - 1)
  }

  lemma {:induction false} CapacityClosedForm(k: nat)
    ensures 2 * Capacity(k) == 2 * FIRST * k + k * (k - 1)
  {
    if k > 0 { CapacityClosedForm(k - 1); }
  }

  lemma {:induction false} CapacityGrows(j: nat, k: nat)
    requires j < k
    ensures Capacity(j) < Capacity(k)
  {
    if j < k - 1 { CapacityGrows(j, k - 1); }
  }

  /** `n` blocks of `size` bytes, as the carving loop adds them up. */
  function Span(n: nat, size: nat): nat {
    if n == 0 then 0 else Span(n - 1, size) + size
  }

  lemma {:induction false} SpanIsProduct(n: nat, size: nat)
    ensures Span(n, size) == n * size
  {
    if n > 0 {
      SpanIsProduct(n - 1, size);
      assert n * size == (n - 1) * size + size;
    }
  }

  lemma {:induction false} SpanGap(i: nat, j: nat, size: nat)
    requires i < j
    ensures Span(i, size) + size <= Span(j, size)
  {
    if i < j - 1 { SpanGap(i, j - 1, size); }
  }

  /** The addresses from `p` to `p + n`. */
  function Range(p: nat, n: nat): (r: set<nat>)
    ensures forall j :: j in r <==> p <= j < p + n
  {
    if n == 0 then {} else Range(p, n - 1) + {p + n - 1}
  }

  // ---- the layout of chunks and blocks ----

  /** A malloc result: a header of one word, then `count` blocks, up to `end`. */
  datatype Chunk = Chunk(base: nat, count: nat, end: nat)

  function Bases(chunks: seq<Chunk>): (b: seq<nat>)
    ensures |b| == |chunks| && forall i :: 0 <= i < |b| ==> b[i] == chunks[i].base
  {
    seq(|chunks|, i requires 0 <= i < |chunks| => chunks[i].base)
  }

  predicate InChunk(c: Chunk, x: nat, size: nat) {
    c.base + WORD <= x && x + size <= c.end
  }

  predicate Apart(x: nat, y: nat, size: nat) {
    x + size <= y || y + size <= x
  }

  /** Chunk `i` is mapped and holds as many blocks as its malloc asked for. */
  ghost predicate ChunkAt(mem: Memory, chunks: seq<Chunk>, size: nat, i: nat)
    requires i < |chunks|
  {
    var c := chunks[i];
    && c.base > 0 && c.count == FIRST + (|chunks| - 1 - i) && c.end == c.base + WORD + Span(c.count, size)
    && Mapped(mem, c.base, c.end - c.base)
  }

  predicate Disjoint(c: Chunk, d: Chunk) {
    c.end <= d.base || d.end <= c.base
  }

  ghost predicate ChunksOk(mem: Memory, chunks: seq<Chunk>, size: nat) {
    && (forall i {:trigger ChunkAt(mem, chunks, size, i)} :: 0 <= i < |chunks| ==> ChunkAt(mem, chunks, size, i))
    && (forall i, j {:trigger Disjoint(chunks[i], chunks[j])} ::
      0 <= i < j < |chunks| ==> Disjoint(chunks[i], chunks[j]))
  }

  /** The block `x` lies inside one chunk, past its header. */
  ghost predicate Inside(chunks: seq<Chunk>, x: nat, size: nat) {
    exists i :: 0 <= i < |chunks| && InChunk(chunks[i], x, size)
  }

  /** Every block lies inside a chunk, and no two blocks overlap. */
  ghost predicate BlocksOk(chunks: seq<Chunk>, blocks: set<nat>, size: nat) {
    && (forall x {:trigger Inside(chunks, x, size)} :: x in blocks ==> Inside(chunks, x, size))
    && (forall x, y {:trigger Apart(x, y, size)} :: x in blocks && y in blocks && x != y ==> Apart(x, y, size))
  }

  /** A block is mapped, and overlaps no header. */
  lemma BlockMapped(mem: Memory, chunks: seq<Chunk>, blocks: set<nat>, size: nat, x: nat)
    requires ChunksOk(mem, chunks, size) && BlocksOk(chunks, blocks, size) && x in blocks
    ensures x > 0 && Mapped(mem, x, size)
    ensures forall i :: 0 <= i < |chunks| ==> x + size <= chunks[i].base || chunks[i].base + WORD <= x
  {
    assert Inside(chunks, x, size);
    var j :| 0 <= j < |chunks| && InChunk(chunks[j], x, size);
    assert ChunkAt(mem, chunks, size, j);
    forall i | 0 <= i < |chunks| ensures x + size <= chunks[i].base || chunks[i].base + WORD <= x {
      assert ChunkAt(mem, chunks, size, i);
      assert i == j || Disjoint(chunks[i], chunks[j]) || Disjoint(chunks[j], chunks[i]);
    }
  }

  /** The blocks carved from `base` on, newest first: the free list after a malloc. */
  function Carved(base: nat, n: nat, size: nat): (s: seq<nat>)
    ensures |s| == n && forall i :: 0 <= i < n ==> s[i] == base + Span(n - 1 - i, size)
  {
    if n == 0 then [] else [base + Span(n - 1, size)] + Carved(base, n - 1, size)
  }

  /** Carved blocks are distinct, apart, and inside the chunk. */
  lemma CarvedApart(base: nat, n: nat, size: nat)
    requires size > 0
    ensures var s := Carved(base, n, size);
      && NoDup(s)
      && (forall i, j :: 0 <= i < j < n ==> Apart(s[i], s[j], size))
      && (forall i :: 0 <= i < n ==> base <= s[i] && s[i] + size <= base + Span(n, size))
  {
  }

  function Elems(s: seq<nat>): set<nat> {
    set x | x in s
  }

  lemma {:induction false} DistinctCount(s: seq<nat>)
    requires NoDup(s)
    ensures |Elems(s)| == |s|
  {
    if s != [] {
      DistinctCount(s[1..]);
      assert Elems(s) == {s[0]} + Elems(s[1..]);
      PopLoses(s);
    }
  }

  // ---- growing by one chunk ----

  ghost predicate Clear(chunks: seq<Chunk>, c: Chunk) {
    forall i {:trigger Disjoint(chunks[i], c)} :: 0 <= i < |chunks| ==> Disjoint(chunks[i], c)
  }

  lemma NewChunkOk(mem: Memory, mem': Memory, chunks: seq<Chunk>, c: Chunk, size: nat)
    requires ChunksOk(mem, chunks, size) && c.base > 0 && Clear(chunks, c)
    requires c.count == FIRST + |chunks| && c.end == c.base + WORD + Span(c.count, size)
    requires mem'.Keys == mem.Keys + Range(c.base, c.end - c.base)
    ensures ChunksOk(mem', [c] + chunks, size)
  {
    var s := [c] + chunks;
    forall i | 0 <= i < |s| ensures ChunkAt(mem', s, size, i) {
      if i > 0 { assert s[i] == chunks[i - 1]; assert ChunkAt(mem, chunks, size, i - 1); }
    }
    forall i, j | 0 <= i < j < |s| ensures Disjoint(s[i], s[j]) {
      if i > 0 { assert Disjoint(chunks[i - 1], chunks[j - 1]); } else { assert Disjoint(chunks[j - 1], c); }
    }
  }

  /** Old blocks and the newly carved ones are apart. */
  lemma NewBlocksOk(chunks: seq<Chunk>, blocks: set<nat>, c: Chunk, size: nat)
    requires BlocksOk(chunks, blocks, size) && size >= WORD && Clear(chunks, c)
    requires c.end == c.base + WORD + Span(c.count, size)
    ensures var s := Carved(c.base + WORD, c.count, size);
      BlocksOk([c] + chunks, Elems(s) + blocks, size) && Elems(s) !! blocks && NoDup(s)
  {
    var s := Carved(c.base + WORD, c.count, size);
    var all := [c] + chunks;
    CarvedApart(c.base + WORD, c.count, size);
    forall x | x in Elems(s) ensures InChunk(c, x, size) && Inside(all, x, size) { assert InChunk(all[0], x, size); }
    forall x | x in blocks ensures Inside(all, x, size) {
      assert Inside(chunks, x, size);
      var i :| 0 <= i < |chunks| && InChunk(chunks[i], x, size);
      assert InChunk(all[i + 1], x, size);
    }
    forall x, y | x in Elems(s) + blocks && y in Elems(s) + blocks && x != y ensures Apart(x, y, size) {
      NewPair(chunks, blocks, c, size, x, y);
    }
    forall x | x in Elems(s) ensures x !in blocks {
      if x in blocks { assert Inside(chunks, x, size); OldApart(chunks, c, x, x, size); }
    }
  }

  lemma NewPair(chunks: seq<Chunk>, blocks: set<nat>, c: Chunk, size: nat, x: nat, y: nat)
    requires BlocksOk(chunks, blocks, size) && size > 0 && Clear(chunks, c)
    requires c.end == c.base + WORD + Span(c.count, size) && x != y
    requires x in blocks || x in Carved(c.base + WORD, c.count, size)
    requires y in blocks || y in Carved(c.base + WORD, c.count, size)
    ensures Apart(x, y, size)
  {
    CarvedApart(c.base + WORD, c.count, size);
    if x in blocks {
      if y !in blocks {
        assert Inside(chunks, x, size);
        OldApart(chunks, c, x, y, size);
      }
    } else if y in blocks {
      assert Inside(chunks, y, size);
      OldApart(chunks, c, y, x, size);
    } else {
      CarvedPair(c.base + WORD, c.count, size, x, y);
    }
  }

  lemma CarvedPair(base: nat, n: nat, size: nat, x: nat, y: nat)
    requires size > 0 && x in Carved(base, n, size) && y in Carved(base, n, size) && x != y
    ensures Apart(x, y, size)
  {
    var s := Carved(base, n, size);
    CarvedApart(base, n, size);
    var i :| 0 <= i < |s| && s[i] == x;
    var j :| 0 <= j < |s| && s[j] == y;
    assert if i < j then Apart(s[i], s[j], size) else Apart(s[j], s[i], size);
  }

  lemma OldApart(chunks: seq<Chunk>, c: Chunk, x: nat, y: nat, size: nat)
    requires Clear(chunks, c) && InChunk(c, y, size)
    requires Inside(chunks, x, size)
    ensures Apart(x, y, size)
  {
    var i :| 0 <= i < |chunks| && InChunk(chunks[i], x, size);
    assert Disjoint(chunks[i], c);
  }

  /** The new chunk enters the chunk list through its header. */
  lemma LinkChunk(mem: Memory, mem': Memory, head: nat, chunks: seq<Chunk>, c: Chunk)
    requires Chain(mem, head, Bases(chunks)) && c.base > 0 && c.base + WORD <= c.end && HeadersClear(chunks, c)
    requires forall j :: j in mem && !(c.base <= j < c.end) ==> j in mem' && mem'[j] == mem[j]
    requires Mapped(mem', c.base, WORD)
    ensures Chain(Store(mem', c.base, head), c.base, Bases([c] + chunks))
  {
    ChainKeptOutside(mem, mem', head, Bases(chunks), c.base, c.end - c.base);
    ChainPush(mem', head, Bases(chunks), c.base);
    assert Bases([c] + chunks) == [c.base] + Bases(chunks);
  }

  /** No old header lies in the new chunk. */
  ghost predicate HeadersClear(chunks: seq<Chunk>, c: Chunk) {
    forall i :: 0 <= i < |chunks| ==> Bases(chunks)[i] + WORD <= c.base || c.end <= Bases(chunks)[i]
  }

  lemma HeadersAreClear(mem: Memory, chunks: seq<Chunk>, c: Chunk, size: nat)
    requires ChunksOk(mem, chunks, size) && Clear(chunks, c)
    ensures HeadersClear(chunks, c)
  {
    forall i | 0 <= i < |chunks| ensures Bases(chunks)[i] + WORD <= c.base || c.end <= Bases(chunks)[i] {
      assert ChunkAt(mem, chunks, size, i) && Disjoint(chunks[i], c);
    }
  }

  /** One more carved block enters the free list. */
  lemma PushCarved(mem: Memory, head: nat, base: nat, i: nat, size: nat)
    requires size >= WORD && base > 0 && Chain(mem, head, Carved(base, i, size))
    requires Mapped(mem, base + Span(i, size), WORD)
    ensures Chain(Store(mem, base + Span(i, size), head), base + Span(i, size), Carved(base, i + 1, size))
  {
    var s := Carved(base, i, size);
    var x := base + Span(i, size);
    CarvedBelow(base, i, size);
    ChainPush(mem, head, s, x);
    assert Carved(base, i + 1, size) == [x] + s;
  }

  lemma CarvedBelow(base: nat, i: nat, size: nat)
    requires size >= WORD
    ensures forall k :: 0 <= k < i ==> Carved(base, i, size)[k] + WORD <= base + Span(i, size)
  {
  }

  /** Nothing is mapped or unmapped, and nothing outside `p`, ..., `p + n` changes. */
  ghost predicate SameOutside(mem: Memory, mem': Memory, p: nat, n: nat) {
    mem'.Keys == mem.Keys && forall j :: j in mem && !(p <= j < p + n) ==> mem'[j] == mem[j]
  }

  /** The carving loop after `i` of its turns. */
  ghost predicate Carving(
    mem: Memory, mem': Memory, head: nat, mallocHead: nat, nodes: seq<nat>, p: nat, i: nat, n: nat, size: nat)
  {
    && Chain(mem', head, Carved(p + WORD, i, size)) && Chain(mem', mallocHead, nodes) && SameOutside(mem, mem', p, n)
  }

  /** No list node lies among the blocks to be carved. */
  ghost predicate NodesClear(nodes: seq<nat>, p: nat, n: nat) {
    forall k :: 0 <= k < |nodes| ==> nodes[k] + WORD <= p || p + n <= nodes[k] || nodes[k] == p
  }

  lemma NodesOutside(chunks: seq<Chunk>, c: Chunk)
    requires HeadersClear(chunks, c) && c.base <= c.end
    ensures NodesClear(Bases([c] + chunks), c.base, c.end - c.base)
  {
    assert Bases([c] + chunks) == [c.base] + Bases(chunks);
  }

  /** One turn of the carving loop. */
  lemma CarveRoom(mem: Memory, p: nat, x: nat, i: nat, count: nat, n: nat, size: nat)
    requires size >= WORD && i < count && n == Span(count, size) + WORD && x == p + WORD + Span(i, size)
    requires Range(p, n) <= mem.Keys
    ensures Mapped(mem, x, WORD) && p + WORD <= x && x + WORD <= p + n
  {
    SpanGap(i, count, size);
  }

  lemma CarveStep(mem: Memory, mem': Memory, head: nat, mallocHead: nat, nodes: seq<nat>,
                  p: nat, x: nat, i: nat, count: nat, n: nat, size: nat)
    requires size >= WORD && i < count && n == Span(count, size) + WORD && x == p + WORD + Span(i, size)
    requires Range(p, n) <= mem.Keys && NodesClear(nodes, p, n)
    requires Carving(mem, mem', head, mallocHead, nodes, p, i, n, size)
    ensures Mapped(mem', x, WORD) && p + WORD + Span(i + 1, size) == x + size
    ensures Carving(mem, Store(mem', x, head), x, mallocHead, nodes, p, i + 1, n, size)
  {
    CarveRoom(mem', p, x, i, count, n, size);
    PushCarved(mem', head, p + WORD, i, size);
    ChainKeptOutside(mem', Store(mem', x, head), mallocHead, nodes, x, WORD);
  }

  predicate Known(sizes: map<nat, nat>, c: Chunk) {
    c.base in sizes && c.base <= c.end && sizes[c.base] == c.end - c.base
  }

  /** The C library knows every chunk. */
  ghost predicate SizesOk(sizes: map<nat, nat>, chunks: seq<Chunk>) {
    forall i {:trigger Known(sizes, chunks[i])} :: 0 <= i < |chunks| ==> Known(sizes, chunks[i])
  }

  /** A malloc result is clear of every chunk, and known from then on. */
  lemma SizesGrow(mem: Memory, sizes: map<nat, nat>, chunks: seq<Chunk>, c: Chunk, size: nat)
    requires SizesOk(sizes, chunks) && c.base < c.end && ChunksOk(mem, chunks, size)
    requires forall b :: b in sizes ==> c.end <= b || b + sizes[b] <= c.base
    ensures Clear(chunks, c) && SizesOk(sizes[c.base := c.end - c.base], [c] + chunks)
  {
    var all := [c] + chunks;
    forall i | 0 <= i < |chunks| ensures Disjoint(chunks[i], c) && chunks[i].base != c.base {
      assert Known(sizes, chunks[i]) && ChunkAt(mem, chunks, size, i);
    }
    forall i | 0 <= i < |all| ensures Known(sizes[c.base := c.end - c.base], all[i]) {
      if i > 0 {
        assert all[i] == chunks[i - 1];
        assert Known(sizes, chunks[i - 1]);
        assert Disjoint(chunks[i - 1], c);
      }
    }
  }

  /** No header lies in a malloc result. */
  lemma GrowthAhead(mem: Memory, sizes: map<nat, nat>, chunks: seq<Chunk>, c: Chunk, size: nat)
    requires SizesOk(sizes, chunks) && ChunksOk(mem, chunks, size) && c.base < c.end
    requires forall b :: b in sizes ==> c.end <= b || b + sizes[b] <= c.base
    ensures HeadersClear(chunks, c) && NodesClear(Bases([c] + chunks), c.base, c.end - c.base)
  {
    SizesGrow(mem, sizes, chunks, c, size);
    HeadersAreClear(mem, chunks, c, size);
    NodesOutside(chunks, c);
  }

  /** The layout with one more chunk. */
  lemma GrowthDone(
    mem: Memory, mem': Memory, sizes: map<nat, nat>, chunks: seq<Chunk>, live: set<nat>, c: Chunk, size: nat)
    requires SizesOk(sizes, chunks) && ChunksOk(mem, chunks, size) && BlocksOk(chunks, live, size)
    requires size >= WORD && c.base > 0 && c.count == FIRST + |chunks| && c.end == c.base + WORD + Span(c.count, size)
    requires forall b :: b in sizes ==> c.end <= b || b + sizes[b] <= c.base
    requires mem'.Keys == mem.Keys + Range(c.base, c.end - c.base)
    ensures ChunksOk(mem', [c] + chunks, size) && SizesOk(sizes[c.base := c.end - c.base], [c] + chunks)
    ensures var s := Carved(c.base + WORD, c.count, size);
      BlocksOk([c] + chunks, Elems(s) + live, size) && Elems(s) !! live && NoDup(s)
  {
    SizesGrow(mem, sizes, chunks, c, size);
    NewChunkOk(mem, mem', chunks, c, size);
    NewBlocksOk(chunks, live, c, size);
  }

  /** The block at `x` is mapped and its bytes are as they were. */
  ghost predicate BlockKept(mem: Memory, mem': Memory, x: nat, size: nat) {
    forall j :: x <= j < x + size ==> j in mem && j in mem' && mem'[j] == mem[j]
  }

  ghost predicate BlocksKept(mem: Memory, mem': Memory, blocks: set<nat>, size: nat) {
    forall x {:trigger BlockKept(mem, mem', x, size)} :: x in blocks ==> BlockKept(mem, mem', x, size)
  }

  /** A malloc result overlaps no live block. */
  lemma LiveOutside(
    mem: Memory, mem': Memory, sizes: map<nat, nat>, chunks: seq<Chunk>, live: set<nat>, size: nat, p: nat, n: nat)
    requires ChunksOk(mem, chunks, size) && SizesOk(sizes, chunks) && BlocksOk(chunks, live, size)
    requires forall b :: b in sizes ==> p + n <= b || b + sizes[b] <= p
    requires forall j :: j in mem && !(p <= j < p + n) ==> j in mem' && mem'[j] == mem[j]
    ensures BlocksKept(mem, mem', live, size)
  {
    forall x | x in live ensures BlockKept(mem, mem', x, size) {
      BlockMapped(mem, chunks, live, size, x);
      assert Inside(chunks, x, size);
      var i :| 0 <= i < |chunks| && InChunk(chunks[i], x, size);
      assert Known(sizes, chunks[i]);
    }
  }

  lemma UntouchedKeeps(mem: Memory, chunks: seq<Chunk>, blocks: set<nat>, size: nat)
    requires ChunksOk(mem, chunks, size)
    requires forall x {:trigger Inside(chunks, x, size)} :: x in blocks ==> Inside(chunks, x, size)
    ensures BlocksKept(mem, mem, blocks, size)
  {
    forall x | x in blocks ensures BlockKept(mem, mem, x, size) {
      assert Inside(chunks, x, size);
      var i :| 0 <= i < |chunks| && InChunk(chunks[i], x, size);
      assert ChunkAt(mem, chunks, size, i);
    }
  }

  // ---- the invariant of a pool ----

  /** `free`: the free list from its head; `live`: the blocks handed out; `peak`: the most ever live at once. */
  datatype Pool = Pool(
    size: nat, mem: Memory, sizes: map<nat, nat>, freeHead: nat, mallocHead: nat, times: nat,
    free: seq<nat>, live: set<nat>, chunks: seq<Chunk>, peak: nat)

  /** The two lists are intact; free and live blocks partition the carved ones. */
  ghost predicate Intact(d: Pool) {
    && d.size >= WORD && |d.chunks| == d.times
    && ChunksOk(d.mem, d.chunks, d.size) && BlocksOk(d.chunks, Elems(d.free) + d.live, d.size)
    && SizesOk(d.sizes, d.chunks) && NoDup(d.free) && Elems(d.free) !! d.live
    && Chain(d.mem, d.freeHead, d.free) && Chain(d.mem, d.mallocHead, Bases(d.chunks))
    && |d.free| + |d.live| == Capacity(d.times) && |d.live| <= d.peak <= Capacity(d.times)
  }

  /** ... and no fewer mallocs would have covered the peak. */
  ghost predicate Ok(d: Pool) {
    Intact(d) && (d.times > 0 ==> d.peak > Capacity(d.times - 1))
  }

  /** The head of the free list goes out. */
  ghost function Taken(d: Pool): Pool
    requires d.free != [] && Mapped(d.mem, d.freeHead, WORD)
  {
    d.(freeHead := Load(d.mem, d.freeHead), free := d.free[1..], live := d.live + {d.free[0]},
      peak := if d.peak < |d.live + {d.free[0]}| then |d.live + {d.free[0]}| else d.peak)
  }

  /** Moving the first of `free` over to `live` leaves their union, and keeps them apart. */
  lemma HeadMoves(free: seq<nat>, live: set<nat>)
    requires free != [] && NoDup(free) && Elems(free) !! live
    ensures free[0] !in live && NoDup(free[1..]) && Elems(free[1..]) !! live + {free[0]}
    ensures Elems(free[1..]) + (live + {free[0]}) == Elems(free) + live
    ensures |live + {free[0]}| == |live| + 1
  {
  }

  lemma TakenOk(d: Pool)
    requires Intact(d) && d.free != []
    requires d.times > 0 ==> d.peak > Capacity(d.times - 1) || |d.live| >= Capacity(d.times - 1)
    ensures d.freeHead == d.free[0] != 0 && d.free[0] !in d.live && Mapped(d.mem, d.freeHead, WORD)
    ensures Ok(Taken(d))
  {
    assert LinkAt(d.mem, d.free, 0);
    ChainTail(d.mem, d.free);
    HeadMoves(d.free, d.live);
    TakenIntact(d);
  }

  lemma TakenIntact(d: Pool)
    requires Intact(d) && d.free != [] && Mapped(d.mem, d.freeHead, WORD)
    requires Chain(d.mem, Load(d.mem, d.freeHead), d.free[1..])
    requires d.free[0] !in d.live && NoDup(d.free[1..]) && Elems(d.free[1..]) !! d.live + {d.free[0]}
    requires Elems(d.free[1..]) + (d.live + {d.free[0]}) == Elems(d.free) + d.live
    requires |d.live + {d.free[0]}| == |d.live| + 1
    ensures Intact(Taken(d))
  {
  }

  /** What Grow relies on. */
  lemma GrowReady(d: Pool)
    requires Ok(d) && d.free == []
    ensures d.size >= WORD && |d.chunks| == d.times && ChunksOk(d.mem, d.chunks, d.size)
    ensures BlocksOk(d.chunks, d.live, d.size) && SizesOk(d.sizes, d.chunks)
    ensures Chain(d.mem, d.mallocHead, Bases(d.chunks))
  {
    assert Elems(d.free) + d.live == d.live;
  }

  /** What Grow establishes makes the pool intact again. */
  lemma GrownOk(d: Pool, d': Pool)
    requires Ok(d) && d.free == [] && d'.times == d.times + 1 == |d'.chunks|
    requires d'.size == d.size && d'.live == d.live && d'.peak == d.peak && |d'.free| == FIRST + d.times
    requires ChunksOk(d'.mem, d'.chunks, d'.size) && BlocksOk(d'.chunks, Elems(d'.free) + d'.live, d'.size)
    requires SizesOk(d'.sizes, d'.chunks) && NoDup(d'.free) && Elems(d'.free) !! d'.live
    requires Chain(d'.mem, d'.freeHead, d'.free) && Chain(d'.mem, d'.mallocHead, Bases(d'.chunks))
    ensures Intact(d') && |d'.live| >= Capacity(d'.times - 1) && d'.free != []
  {
  }

  /** The pool after one more malloc, which returned `p`: every new block is free, nothing else moved. */
  ghost predicate Grown(d: Pool, p: nat, d': Pool) {
    && Intact(d') && d'.times == d.times + 1 && d'.size == d.size && d'.live == d.live && d'.peak == d.peak
    && d'.free == Carved(p + WORD, FIRST + d.times, d.size) && |d'.live| == Capacity(d.times)
    && BlocksKept(d.mem, d'.mem, d.live, d.size)
  }

  lemma GrownIs(d: Pool, p: nat, d': Pool)
    requires Ok(d) && d.free == [] && d'.times == d.times + 1 == |d'.chunks|
    requires d'.size == d.size && d'.live == d.live && d'.peak == d.peak
    requires d'.free == Carved(p + WORD, FIRST + d.times, d.size)
    requires ChunksOk(d'.mem, d'.chunks, d'.size) && BlocksOk(d'.chunks, Elems(d'.free) + d'.live, d'.size)
    requires SizesOk(d'.sizes, d'.chunks) && NoDup(d'.free) && Elems(d'.free) !! d'.live
    requires Chain(d'.mem, d'.freeHead, d'.free) && Chain(d'.mem, d'.mallocHead, Bases(d'.chunks))
    requires var n := Span(FIRST + d.times, d.size) + WORD;
      && (forall b :: b in d.sizes ==> p + n <= b || b + d.sizes[b] <= p)
      && forall j :: j in d.mem && !(p <= j < p + n) ==> j in d'.mem && d'.mem[j] == d.mem[j]
    ensures Grown(d, p, d')
  {
    assert Elems(d.free) + d.live == d.live;
    LiveOutside(d.mem, d'.mem, d.sizes, d.chunks, d.live, d.size, p, Span(FIRST + d.times, d.size) + WORD);
    GrownOk(d, d');
  }

  /**
   * AllocAMemBlock: the block that goes out was not live; with a free block at hand it is the head of
   * the free list and memory is untouched, and otherwise all blocks were live and it is the last of a
   * freshly carved chunk.  No live block's bytes change.
   */
  ghost predicate AllocEffect(d: Pool, p: nat, ret: nat, d': Pool) {
    && ret != 0 && ret !in d.live && d'.live == d.live + {ret} && d'.size == d.size
    && BlocksKept(d.mem, d'.mem, d.live, d.size)
    && if d.free != [] then
         [ret] + d'.free == d.free && d'.times == d.times && d'.mem == d.mem && d'.chunks == d.chunks
       else
         |d.live| == Capacity(d.times) && d'.times == d.times + 1
         && [ret] + d'.free == Carved(p + WORD, FIRST + d.times, d.size)
  }

  lemma AllocDoes(d: Pool, p: nat, e: Pool)
    requires Ok(d) && if d.free == [] then Grown(d, p, e) else e == d
    requires e.free != [] && e.freeHead == e.free[0] != 0 && Mapped(e.mem, e.freeHead, WORD) && e.free[0] !in d.live
    ensures AllocEffect(d, p, e.free[0], Taken(e))
  {
    if d.free != [] { UntouchedKeeps(d.mem, d.chunks, d.live, d.size); }
    assert [e.free[0]] + e.free[1..] == e.free;
  }

  lemma AllocOk(d: Pool, p: nat, e: Pool)
    requires Ok(d) && if d.free == [] then Grown(d, p, e) else e == d
    ensures e.free != [] && e.freeHead == e.free[0] && Mapped(e.mem, e.freeHead, WORD)
    ensures Ok(Taken(e)) && AllocEffect(d, p, e.free[0], Taken(e))
  {
    TakenOk(e);
    AllocDoes(d, p, e);
  }

  /** FreeAMemBlock: the block's first word becomes a link, and the block the head of the free list. */
  ghost function Freed(d: Pool, block: nat): Pool
    requires Mapped(d.mem, block, WORD)
  {
    d.(mem := Store(d.mem, block, d.freeHead), freeHead := block, free := [block] + d.free, live := d.live - {block})
  }

  lemma FreedOk(d: Pool, block: nat)
    requires Ok(d) && block in d.live
    ensures Mapped(d.mem, block, WORD) && Ok(Freed(d, block))
    ensures BlocksKept(d.mem, Freed(d, block).mem, d.live - {block}, d.size)
  {
    var all := Elems(d.free) + d.live;
    BlockMapped(d.mem, d.chunks, all, d.size, block);
    var d' := Freed(d, block);
    forall i | 0 <= i < |d.free| ensures d.free[i] + WORD <= block || block + WORD <= d.free[i] {
      assert d.free[i] in all && Apart(d.free[i], block, d.size);
    }
    ChainPush(d.mem, d.freeHead, d.free, block);
    ChainKeptOutside(d.mem, d'.mem, d.mallocHead, Bases(d.chunks), block, WORD);
    assert Elems(d'.free) + d'.live == all;
    forall i | 0 <= i < |d.chunks| ensures ChunkAt(d'.mem, d.chunks, d.size, i) {
      assert ChunkAt(d.mem, d.chunks, d.size, i);
    }
    FreedKeeps(d, block);
  }

  lemma FreedKeeps(d: Pool, block: nat)
    requires Ok(d) && block in d.live && Mapped(d.mem, block, WORD)
    ensures BlocksKept(d.mem, Freed(d, block).mem, d.live - {block}, d.size)
  {
    forall x | x in d.live - {block} ensures BlockKept(d.mem, Freed(d, block).mem, x, d.size) {
      BlockMapped(d.mem, d.chunks, Elems(d.free) + d.live, d.size, x);
      assert Apart(x, block, d.size);
    }
  }

  /** Allocating right after a free hands the same block out again, and only its first word has changed. */
  lemma AllocUndoesFree(d: Pool, block: nat)
    requires Ok(d) && block in d.live
    ensures Mapped(d.mem, block, WORD) && Mapped(Freed(d, block).mem, block, WORD)
    ensures Taken(Freed(d, block)) == d.(mem := Store(d.mem, block, d.freeHead))
  {
    BlockMapped(d.mem, d.chunks, Elems(d.free) + d.live, d.size, block);
    assert Freed(d, block).free[1..] == d.free;
    assert d.live - {block} + {block} == d.live;
  }

  /** Freeing the block just taken from a non-empty free list restores every field and every byte. */
  lemma FreeUndoesAlloc(d: Pool)
    requires Ok(d) && d.free != []
    ensures Mapped(d.mem, d.freeHead, WORD)
    ensures Freed(Taken(d), d.freeHead) == d.(peak := Taken(d).peak)
  {
    HeadMoves(d.free, d.live);
    RestoredMemory(d.mem, d.free);
    RestoredSets(d.free, d.live);
  }

  lemma RestoredMemory(mem: Memory, nodes: seq<nat>)
    requires nodes != [] && Chain(mem, nodes[0], nodes)
    ensures Mapped(mem, nodes[0], WORD) && Store(mem, nodes[0], Load(mem, nodes[0])) == mem
  {
    ChainTail(mem, nodes);
  }

  lemma RestoredSets(free: seq<nat>, live: set<nat>)
    requires free != [] && free[0] !in live
    ensures [free[0]] + free[1..] == free && live + {free[0]} - {free[0]} == live
  {
  }

  /** A client writes any byte of a block it holds: both lists and every other block stay as they are. */
  lemma ClientWriteOk(d: Pool, block: nat, j: nat, b: Byte)
    requires Ok(d) && block in d.live && block <= j < block + d.size
    ensures j in d.mem && Ok(d.(mem := d.mem[j := b]))
    ensures BlocksKept(d.mem, d.mem[j := b], d.live - {block}, d.size)
  {
    var all := Elems(d.free) + d.live;
    var mem' := d.mem[j := b];
    BlockMapped(d.mem, d.chunks, all, d.size, block);
    forall i | 0 <= i < |d.free| ensures d.free[i] + WORD <= block || block + d.size <= d.free[i] {
      assert d.free[i] in all && Apart(d.free[i], block, d.size);
    }
    ChainKeptOutside(d.mem, mem', d.freeHead, d.free, block, d.size);
    ChainKeptOutside(d.mem, mem', d.mallocHead, Bases(d.chunks), block, d.size);
    forall i | 0 <= i < |d.chunks| ensures ChunkAt(mem', d.chunks, d.size, i) {
      assert ChunkAt(d.mem, d.chunks, d.size, i);
    }
    forall x | x in d.live - {block} ensures BlockKept(d.mem, mem', x, d.size) {
      BlockMapped(d.mem, d.chunks, all, d.size, x);
      assert Apart(x, block, d.size);
    }
  }

  /** The number of mallocs is the least whose capacity covers the most blocks ever live at once. */
  lemma LeastMallocs(d: Pool, k: nat)
    requires Ok(d)
    ensures Capacity(k) >= d.peak <==> k >= d.times
  {
    if k < d.times - 1 { CapacityGrows(k, d.times - 1); }
    if k > d.times { CapacityGrows(d.times, k); }
  }

  // ---- over a pool's whole life ----

  datatype Op = Alloc(p: nat) | Free(block: nat) | Write(block: nat, at: nat, b: Byte)

  /** A pool's methods and its clients' writes; `grown` is the pool after the growing branch, if it is taken. */
  ghost predicate OpStep(d: Pool, op: Op, grown: Pool, d': Pool) {
    match op
    case Alloc(p) =>
      && (if d.free == [] then Grown(d, p, grown) else grown == d)
      && grown.free != [] && Mapped(grown.mem, grown.freeHead, WORD) && d' == Taken(grown)
    case Free(block) => block in d.live && Mapped(d.mem, block, WORD) && d' == Freed(d, block)
    case Write(block, at, b) => block in d.live && block <= at < block + d.size && d' == d.(mem := d.mem[at := b])
  }

  ghost predicate IsLife(states: seq<Pool>, ops: seq<Op>, grown: seq<Pool>) {
    && |states| == |ops| + 1 == |grown| + 1
    && Ok(states[0]) && states[0].live == {} && states[0].peak == 0
    && forall i, j {:trigger OpStep(states[i], ops[i], grown[i], states[j])} ::
      0 <= i < |ops| && j == i + 1 ==> OpStep(states[i], ops[i], grown[i], states[j])
  }

  /** The most blocks that were live at once in the states up to `n`. */
  ghost function MostLive(states: seq<Pool>, n: nat): nat
    requires n < |states|
  {
    var here := |states[n].live|;
    if n == 0 || here > MostLive(states, n - 1) then here else MostLive(states, n - 1)
  }

  lemma OpKeeps(d: Pool, op: Op, grown: Pool, d': Pool)
    requires Ok(d) && OpStep(d, op, grown, d')
    ensures Ok(d') && d'.peak == if d.peak < |d'.live| then |d'.live| else d.peak
  {
    match op
    case Alloc(p) => AllocOk(d, p, grown);
    case Free(block) => FreedOk(d, block);
    case Write(block, at, b) => ClientWriteOk(d, block, at, b);
  }

  lemma {:induction false} PeakIsMostLive(states: seq<Pool>, ops: seq<Op>, grown: seq<Pool>, n: nat)
    requires IsLife(states, ops, grown) && n <= |ops|
    ensures Ok(states[n]) && states[n].peak == MostLive(states, n)
  {
    if n > 0 {
      PeakIsMostLive(states, ops, grown, n - 1);
      assert OpStep(states[n - 1], ops[n - 1], grown[n - 1], states[n]);
      OpKeeps(states[n - 1], ops[n - 1], grown[n - 1], states[n]);
    }
  }

  /** The number of mallocs is the least whose capacity covers the most blocks that were ever live at once. */
  lemma NoMallocTooMany(states: seq<Pool>, ops: seq<Op>, grown: seq<Pool>, n: nat, k: nat)
    requires IsLife(states, ops, grown) && n <= |ops|
    ensures Capacity(k) >= MostLive(states, n) <==> k >= states[n].times
  {
    PeakIsMostLive(states, ops, grown, n);
    LeastMallocs(states[n], k);
  }

  /** Blocks that exist are live or free: 40k + k(k-1)/2 after k mallocs. */
  lemma BlockCount(d: Pool)
    requires Ok(d)
    ensures 2 * (|d.live| + |d.free|) == 80 * d.times + d.times * (d.times - 1)
  {
    CapacityClosedForm(d.times);
  }

  /** Any two blocks that are live at once, or live and free, share no byte. */
  lemma BlocksNeverOverlap(d: Pool, x: nat, y: nat, j: nat)
    requires Ok(d) && x in Elems(d.free) + d.live && y in Elems(d.free) + d.live && x != y
    requires x <= j < x + d.size
    ensures !(y <= j < y + d.size)
    ensures exists i :: 0 <= i < |d.chunks| && d.chunks[i].base + WORD <= j < d.chunks[i].end
  {
    assert Apart(x, y, d.size) && Inside(d.chunks, x, d.size);
    var i :| 0 <= i < |d.chunks| && InChunk(d.chunks[i], x, d.size);
    assert d.chunks[i].base + WORD <= j < d.chunks[i].end;
  }

  // ---- the destructor's view of the chunk list ----

  ghost predicate Releasable(mem: Memory, sizes: map<nat, nat>, head: nat, rest: seq<Chunk>) {
    && Chain(mem, head, Bases(rest)) && SizesOk(sizes, rest)
    && (forall i :: 0 <= i < |rest| ==> rest[i].base + WORD <= rest[i].end)
    && (forall i, j {:trigger Disjoint(rest[i], rest[j])} :: 0 <= i < j < |rest| ==> Disjoint(rest[i], rest[j]))
  }

  /** Freeing the first chunk leaves the links of the others. */
  lemma ReleaseFirst(mem: Memory, sizes: map<nat, nat>, head: nat, rest: seq<Chunk>)
    requires Releasable(mem, sizes, head, rest) && head != 0
    ensures rest != [] && head == rest[0].base && Mapped(mem, head, WORD) && Known(sizes, rest[0])
    ensures Releasable(mem - Range(head, sizes[head]), sizes - {head}, Load(mem, head), rest[1..])
  {
    NullHeadMeansEmpty(mem, head, Bases(rest));
    assert Bases(rest)[0] == rest[0].base;
    assert LinkAt(mem, Bases(rest), 0) && Known(sizes, rest[0]);
    var mem', more := mem - Range(head, sizes[head]), rest[1..];
    ChainTail(mem, Bases(rest));
    assert Bases(more) == Bases(rest)[1..];
    forall i | 0 <= i < |more| ensures Known(sizes - {head}, more[i]) && Disjoint(rest[0], more[i]) {
      assert Disjoint(rest[0], rest[i + 1]) && Known(sizes, rest[i + 1]);
    }
    forall i, j | 0 <= i < j < |more| ensures Disjoint(more[i], more[j]) { assert Disjoint(rest[i + 1], rest[j + 1]); }
    ChainKeptOutside(mem, mem', Load(mem, head), Bases(more), head, sizes[head]);
  }

  lemma ElemsOfPush(s: seq<nat>, x: nat)
    ensures Elems(s + [x]) == Elems(s) + {x}
  {
  }

  lemma OneMoreReleased(released: seq<nat>, rest: seq<Chunk>)
    requires rest != []
    ensures released + [rest[0].base] + Bases(rest[1..]) == released + Bases(rest)
  {
  }

  lemma DistinctBases(mem: Memory, chunks: seq<Chunk>, size: nat)
    requires ChunksOk(mem, chunks, size)
    ensures NoDup(Bases(chunks))
  {
    forall i, j | 0 <= i < j < |chunks| ensures Bases(chunks)[i] != Bases(chunks)[j] {
      assert Disjoint(chunks[i], chunks[j]) && ChunkAt(mem, chunks, size, i) && ChunkAt(mem, chunks, size, j);
    }
  }

  lemma PoolReleasable(d: Pool)
    requires Ok(d)
    ensures Releasable(d.mem, d.sizes, d.mallocHead, d.chunks)
  {
    forall i | 0 <= i < |d.chunks| ensures d.chunks[i].base + WORD <= d.chunks[i].end {
      assert ChunkAt(d.mem, d.chunks, d.size, i);
    }
  }

  class MemPool {
    const objSize: nat
    var mem: Memory              // the bytes of the pool's chunks
    var sizes: map<nat, nat>     // the C library's record of them: address to length
    var freeListHead: nat
    var mallocListHead: nat
    var mallocTimes: nat
    ghost var free: seq<nat>     // the blocks on the free list, from its head
    ghost var live: set<nat>     // the blocks handed out
    ghost var chunks: seq<Chunk> // newest first
    ghost var peak: nat          // the most blocks ever live at once

    ghost function Blocks(): set<nat>
      reads this
    {
      Elems(free) + live
    }

    /** The object's fields, as one value. */
    ghost function Snap(): Pool
      reads this
    {
      Pool(objSize, mem, sizes, freeListHead, mallocListHead, mallocTimes, free, live, chunks, peak)
    }

    ghost predicate Valid()
      reads this
    {
      Ok(Snap())
    }

    constructor (requested: nat)
      ensures Valid() && free == [] && live == {} && mallocTimes == 0
      ensures objSize == if requested < WORD then WORD else requested
    {
      objSize := if requested < WORD then WORD else requested;
      mem, sizes, freeListHead, mallocListHead, mallocTimes := map[], map[], 0, 0, 0;
      free, live, chunks, peak := [], {}, [], 0;
    }

    /** An address that malloc may return for `n` bytes: not null, and clear of everything it returned before. */
    predicate MallocResult(p: nat, n: nat)
      reads this
    {
      p > 0 && forall b :: b in sizes ==> p + n <= b || b + sizes[b] <= p
    }

    /** How many bytes the next malloc asks for. */
    function NextMalloc(): nat
      reads this
    {
      Span(FIRST + mallocTimes, objSize) + WORD
    }

    /** malloc: the bytes of the new chunk are mapped, with whatever they happen to hold. */
    method Malloc(p: nat, n: nat)
      requires MallocResult(p, n)
      modifies this`mem, this`sizes
      ensures mem.Keys == old(mem.Keys) + Range(p, n)
      ensures forall j :: j in old(mem) && !(p <= j < p + n) ==> mem[j] == old(mem[j])
      ensures sizes == old(sizes)[p := n]
    {
      var junk: Byte := *;
      mem := map j: nat | j in mem.Keys + Range(p, n) :: if p <= j < p + n then junk else mem[j];
      sizes := sizes[p := n];
    }

    /** The new chunk is linked into the chunk list by its header. */
    method AddChunk(p: nat, n: nat, ghost c: Chunk)
      requires Chain(mem, mallocListHead, Bases(chunks)) && HeadersClear(chunks, c)
      requires MallocResult(p, n) && n >= WORD && c.base == p && c.end == p + n
      modifies this`mem, this`sizes, this`mallocListHead
      ensures mem.Keys == old(mem.Keys) + Range(p, n) && sizes == old(sizes)[p := n]
      ensures forall j :: j in old(mem) && !(p <= j < p + n) ==> mem[j] == old(mem[j])
      ensures Chain(mem, mallocListHead, Bases([c] + chunks))
    {
      ghost var mem0 := mem;
      Malloc(p, n);
      LinkChunk(mem0, mem, mallocListHead, chunks, c);
      mem := Store(mem, p, mallocListHead);
      mallocListHead := p;
    }

    /** The blocks of the new chunk are pushed on the empty free list one by one. */
    method Carve(p: nat, mallocCnt: nat, ghost n: nat, ghost nodes: seq<nat>)
      requires objSize >= WORD && freeListHead == 0 && n == Span(mallocCnt, objSize) + WORD
      requires Range(p, n) <= mem.Keys && Chain(mem, mallocListHead, nodes) && NodesClear(nodes, p, n)
      modifies this`mem, this`freeListHead
      ensures Carving(old(mem), mem, freeListHead, mallocListHead, nodes, p, mallocCnt, n, objSize)
    {
      var newMallocBlk := p + WORD;
      for i := 0 to mallocCnt
        invariant newMallocBlk == p + WORD + Span(i, objSize)
        invariant Carving(old(mem), mem, freeListHead, mallocListHead, nodes, p, i, n, objSize)
      {
        CarveStep(old(mem), mem, freeListHead, mallocListHead, nodes, p, newMallocBlk, i, mallocCnt, n, objSize);
        mem := Store(mem, newMallocBlk, freeListHead);
        freeListHead := newMallocBlk;
        newMallocBlk := newMallocBlk + objSize;
      }
    }

    /** The growing branch of AllocAMemBlock: what it writes. */
    method MallocAndCarve(p: nat, mallocCnt: nat, ghost c: Chunk)
      requires objSize >= WORD && freeListHead == 0 && c == Chunk(p, mallocCnt, p + Span(mallocCnt, objSize) + WORD)
      requires MallocResult(p, c.end - c.base)
      requires Chain(mem, mallocListHead, Bases(chunks)) && HeadersClear(chunks, c)
      requires NodesClear(Bases([c] + chunks), p, c.end - c.base)
      modifies this`mem, this`sizes, this`freeListHead, this`mallocListHead
      ensures mem.Keys == old(mem.Keys) + Range(p, c.end - c.base) && sizes == old(sizes)[p := c.end - p]
      ensures Chain(mem, freeListHead, Carved(p + WORD, mallocCnt, objSize))
      ensures Chain(mem, mallocListHead, Bases([c] + chunks))
      ensures forall j :: j in old(mem) && !(p <= j < c.end) ==> j in mem && mem[j] == old(mem[j])
    {
      SpanIsProduct(mallocCnt, objSize);
      var n := mallocCnt * objSize + WORD;
      AddChunk(p, n, c);
      Carve(p, mallocCnt, n, Bases([c] + chunks));
    }

    /** The growing branch of AllocAMemBlock. */
    method Grow(p: nat, ghost c: Chunk)
      requires c == Chunk(p, FIRST + mallocTimes, p + NextMalloc())
      requires objSize >= WORD && |chunks| == mallocTimes && freeListHead == 0 && MallocResult(p, NextMalloc())
      requires ChunksOk(mem, chunks, objSize) && BlocksOk(chunks, live, objSize) && SizesOk(sizes, chunks)
      requires Chain(mem, mallocListHead, Bases(chunks))
      modifies this`mem, this`sizes, this`freeListHead, this`mallocListHead, this`mallocTimes, this`free, this`chunks
      ensures free == Carved(p + WORD, c.count, objSize)
      ensures mallocTimes == old(mallocTimes) + 1 == |chunks|
      ensures chunks == [c] + old(chunks)
      ensures ChunksOk(mem, chunks, objSize) && BlocksOk(chunks, Blocks(), objSize) && SizesOk(sizes, chunks)
      ensures NoDup(free) && Elems(free) !! live
      ensures Chain(mem, freeListHead, free) && Chain(mem, mallocListHead, Bases(chunks))
      ensures forall j :: j in old(mem) && !(p <= j < c.end) ==> j in mem && mem[j] == old(mem[j])
    {
      var mallocCnt := FIRST + mallocTimes;
      GrowthAhead(mem, sizes, chunks, c, objSize);
      ghost var mem0, sizes0 := mem, sizes;
      MallocAndCarve(p, mallocCnt, c);
      GrowthDone(mem0, mem, sizes0, chunks, live, c, objSize);
      chunks := [c] + chunks;
      mallocTimes := mallocTimes + 1;
      free := Carved(p + WORD, mallocCnt, objSize);
    }

    method GrowEmpty(p: nat)
      requires Valid() && free == [] && freeListHead == 0 && MallocResult(p, NextMalloc())
      modifies this
      ensures Grown(old(Snap()), p, Snap())
    {
      ghost var d := Snap();
      GrowReady(d);
      Grow(p, Chunk(p, FIRST + mallocTimes, p + NextMalloc()));
      GrownIs(d, p, Snap());
    }

    method GrowIfEmpty(p: nat)
      requires Valid() && (freeListHead == 0 ==> MallocResult(p, NextMalloc()))
      modifies this
      ensures if old(free) == [] then Grown(old(Snap()), p, Snap()) else Snap() == old(Snap())
    {
      NullHeadMeansEmpty(mem, freeListHead, free);
      if freeListHead == 0 {
        GrowEmpty(p);
      }
    }

    /** The last three lines of AllocAMemBlock. */
    method TakeHead() returns (ret: nat)
      requires free != [] && freeListHead == free[0] && Mapped(mem, freeListHead, WORD)
      modifies this`freeListHead, this`free, this`live, this`peak
      ensures Snap() == Taken(old(Snap())) && ret == old(free)[0]
    {
      ret := freeListHead;
      freeListHead := Load(mem, freeListHead);
      live := live + {ret};
      free := free[1..];
      if peak < |live| { peak := |live|; }
    }

    /** AllocAMemBlock; `p` is what malloc returns if it is called. */
    method AllocAMemBlock(p: nat) returns (ret: nat)
      requires Valid() && (freeListHead == 0 ==> MallocResult(p, NextMalloc()))
      modifies this
      ensures Valid() && AllocEffect(old(Snap()), p, ret, Snap())
      ensures peak == if old(peak) < |live| then |live| else old(peak)
    {
      ghost var d := Snap();
      GrowIfEmpty(p);
      AllocOk(d, p, Snap());
      ret := TakeHead();
    }

    /** FreeAMemBlock: null is ignored; otherwise the block goes to the head of the free list. */
    method FreeAMemBlock(block: nat)
      requires Valid() && (block == 0 || block in live)
      modifies this`mem, this`freeListHead, this`free, this`live
      ensures Valid() && mallocTimes == old(mallocTimes) && chunks == old(chunks)
      ensures block == 0 ==> Snap() == old(Snap())
      ensures block != 0 ==> free == [block] + old(free) && live == old(live) - {block}
      ensures BlocksKept(old(mem), mem, live, objSize)
    {
      if block == 0 {
        UntouchedKeeps(mem, chunks, live, objSize);
        return;
      }
      FreedOk(Snap(), block);
      mem := Store(mem, block, freeListHead);
      freeListHead := block;
      free := [block] + free;
      live := live - {block};
      assert Snap() == Freed(old(Snap()), block);
    }

    /** What a client may do with a block it was given: write any of its bytes. */
    method ClientWrite(block: nat, j: nat, b: Byte)
      requires Valid() && block in live && block <= j < block + objSize
      modifies this`mem
      ensures Valid() && j in mem && mem[j] == b
      ensures BlocksKept(old(mem), mem, live - {block}, objSize)
    {
      ClientWriteOk(Snap(), block, j, b);
      mem := mem[j := b];
      assert Snap() == old(Snap()).(mem := mem);
    }

    /** free: the bytes at `p` may not be read any more. */
    method Release(p: nat)
      requires p in sizes
      modifies this`mem, this`sizes
      ensures mem == old(mem) - Range(p, old(sizes[p])) && sizes == old(sizes) - {p}
    {
      mem := mem - Range(p, sizes[p]);
      sizes := sizes - {p};
    }

    /** The loop of ~MemPool: each link is read before its chunk goes. */
    method ReleaseAll(ghost all: seq<Chunk>) returns (released: seq<nat>)
      requires Releasable(mem, sizes, mallocListHead, all)
      modifies this`mem, this`sizes, this`mallocListHead
      ensures released == Bases(all) && sizes == old(sizes) - Elems(released)
    {
      released := [];
      ghost var rest := all;
      while mallocListHead != 0
        invariant Releasable(mem, sizes, mallocListHead, rest)
        invariant released + Bases(rest) == Bases(all)
        invariant sizes == old(sizes) - Elems(released)
        decreases |rest|
      {
        ReleaseFirst(mem, sizes, mallocListHead, rest);
        OneMoreReleased(released, rest);
        ElemsOfPush(released, mallocListHead);
        var mallocNode := mallocListHead;
        mallocListHead := Load(mem, mallocNode);
        Release(mallocNode);
        released := released + [mallocNode];
        rest := rest[1..];
      }
      NullHeadMeansEmpty(mem, mallocListHead, Bases(rest));
    }

    /** ~MemPool: every chunk is given back to the C library exactly once, newest first. */
    method Destroy() returns (released: seq<nat>)
      requires Valid()
      modifies this`mem, this`sizes, this`mallocListHead
      ensures released == Bases(chunks) && NoDup(released) && |released| == mallocTimes
      ensures sizes == old(sizes) - Elems(released)
    {
      PoolReleasable(Snap());
      DistinctBases(mem, chunks, objSize);
      released := ReleaseAll(chunks);
    }
  }
}
