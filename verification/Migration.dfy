/**
  Page migration between system memory and VRAM. The driver copies in batches that are
  contiguous in VRAM, splits each batch by the size of the GART window, and towards VRAM
  takes its destination from a resource made of several contiguous blocks. All addresses
  are counted in pages.
 */
module Migration {
  import opened Basics

  /** AMDGPU_GTT_MAX_TRANSFER_SIZE */
  const GTT_MAX_PAGES := 512

  // ----- the destination resource

  datatype Block = Block(start: nat, size: nat)

  function Total(blocks: seq<Block>): nat {
    if blocks == [] then 0 else blocks[0].size + Total(blocks[1..])
  }

  /** The k-th page of a resource. */
  function PageAt(blocks: seq<Block>, k: nat): nat
    requires k < Total(blocks)
  {
    if k < blocks[0].size then blocks[0].start + k else PageAt(blocks[1..], k - blocks[0].size)
  }

  /** struct amdgpu_res_cursor; `rest` are the blocks from the current one on. */
  datatype Cursor = Cursor(rest: seq<Block>, start: nat, size: nat, remaining: nat)

  function Min(a: nat, b: nat): nat { if a < b then a else b }

  /** amdgpu_res_first */
  function ResFirst(blocks: seq<Block>, start: nat, size: nat): Cursor
    requires start < Total(blocks)
  {
    if start >= blocks[0].size then ResFirst(blocks[1..], start - blocks[0].size, size)
    else Cursor(blocks, blocks[0].start + start, Min(blocks[0].size - start, size), size)
  }

  /** amdgpu_res_next, within the current block. */
  function ResNext(c: Cursor, n: nat): Cursor
    requires n <= c.remaining && n <= c.size
    requires n < c.remaining && n == c.size ==> |c.rest| > 1
  {
    var left := c.remaining - n;
    if left == 0 then c.(remaining := 0)
    else if c.size - n != 0 then c.(start := c.start + n, size := c.size - n, remaining := left)
    else Cursor(c.rest[1..], c.rest[1].start, Min(c.rest[1].size, left), left)
  }

  /** The blocks from one on are the resource from some page on. */
  ghost predicate SuffixAt(blocks: seq<Block>, rest: seq<Block>, base: nat) {
    && Total(rest) + base == Total(blocks)
    && forall t: nat | t < Total(rest) :: PageAt(rest, t) == PageAt(blocks, base + t)
  }

  /** The cursor stands at page `pos` of the resource and will go up to `end`. */
  ghost predicate CursorAt(blocks: seq<Block>, c: Cursor, pos: nat, end: nat) {
    && pos < end <= Total(blocks)
    && c.rest != [] && c.rest[0].start <= c.start
    && var off := c.start - c.rest[0].start;
       && off < c.rest[0].size && off <= pos
       && SuffixAt(blocks, c.rest, pos - off)
       && c.remaining == end - pos && c.size == Min(c.rest[0].size - off, c.remaining)
  }

  lemma SuffixTail(blocks: seq<Block>, rest: seq<Block>, base: nat)
    requires SuffixAt(blocks, rest, base) && rest != []
    ensures SuffixAt(blocks, rest[1..], base + rest[0].size)
  {
    forall t: nat | t < Total(rest[1..]) ensures PageAt(rest[1..], t) == PageAt(blocks, base + rest[0].size + t) {
      assert PageAt(rest, rest[0].size + t) == PageAt(blocks, base + (rest[0].size + t));
    }
  }

  lemma {:induction false} FirstFrom(blocks: seq<Block>, rest: seq<Block>, base: nat, start: nat, size: nat)
    requires SuffixAt(blocks, rest, base) && 0 < size && start + size <= Total(rest)
    ensures CursorAt(blocks, ResFirst(rest, start, size), base + start, base + start + size)
    decreases |rest|
  {
    hide SuffixAt, CursorAt, PageAt;
    if start >= rest[0].size {
      SuffixTail(blocks, rest, base);
      FirstFrom(blocks, rest[1..], base + rest[0].size, start - rest[0].size, size);
    } else {
      FirstHere(blocks, rest, base, start, size);
    }
  }

  lemma FirstHere(blocks: seq<Block>, rest: seq<Block>, base: nat, start: nat, size: nat)
    requires SuffixAt(blocks, rest, base) && 0 < size && start + size <= Total(rest)
    requires rest != [] && start < rest[0].size
    ensures CursorAt(blocks, ResFirst(rest, start, size), base + start, base + start + size)
  {
    hide PageAt;
  }

  lemma FirstAt(blocks: seq<Block>, start: nat, size: nat)
    requires 0 < size && start + size <= Total(blocks)
    ensures CursorAt(blocks, ResFirst(blocks, start, size), start, start + size)
  {
    FirstFrom(blocks, blocks, 0, start, size);
  }

  /** Blocks are never empty. */
  predicate NonEmpty(blocks: seq<Block>) { forall b <- blocks :: b.size > 0 }

  lemma NextAt(blocks: seq<Block>, c: Cursor, pos: nat, end: nat, n: nat)
    requires CursorAt(blocks, c, pos, end) && n <= c.size && NonEmpty(c.rest)
    ensures n <= c.remaining && (n < c.remaining && n == c.size ==> |c.rest| > 1)
    ensures NonEmpty(ResNext(c, n).rest)
    ensures pos + n < end ==> CursorAt(blocks, ResNext(c, n), pos + n, end)
  {
    var off := c.start - c.rest[0].start;
    if pos + n < end && n == c.size {
      assert Total(c.rest[1..]) > 0;
      SuffixTail(blocks, c.rest, pos - off);
    }
  }

  /** Within the current block pages are consecutive. */
  lemma InBlock(blocks: seq<Block>, c: Cursor, pos: nat, end: nat, t: nat)
    requires CursorAt(blocks, c, pos, end) && t < c.size
    ensures pos + t < Total(blocks) && PageAt(blocks, pos + t) == c.start + t
  {
    var off := c.start - c.rest[0].start;
    assert off + t < Total(c.rest);
    assert PageAt(c.rest, off + t) == PageAt(blocks, pos - off + (off + t));
  }

  // ----- copies

  datatype Direction = ToVram | ToRam

  /** One page copied. */
  datatype Copy = Copy(from: nat, to: nat)

  /** Copies of a list of pages to a list of places. */
  function Straight(from: seq<nat>, to: seq<nat>): seq<Copy>
    requires |from| == |to|
  {
    seq(|from|, t requires 0 <= t < |from| => Copy(from[t], to[t]))
  }

  lemma StraightSplit(from: seq<nat>, to: seq<nat>, b: nat, e: nat)
    requires |from| == |to| && b <= e <= |from|
    ensures Straight(from[..e], to[..e]) == Straight(from[..b], to[..b]) + Straight(from[b..e], to[b..e])
  {
  }

  /** VRAM pages in a row, as one SDMA transfer addresses them. */
  function Row(first: nat, n: nat): seq<nat> { seq(n, t requires t >= 0 => first + t) }

  ghost predicate InARow(vram: seq<nat>) { vram != [] ==> vram == Row(vram[0], |vram|) }

  /** One SDMA transfer: the system pages mapped through the window, and where it starts in VRAM. */
  datatype Transfer = Transfer(direction: Direction, mapped: seq<nat>, first: nat)

  function Copies(t: Transfer): seq<Copy> {
    var vram := Row(t.first, |t.mapped|);
    if t.direction == ToVram then Straight(t.mapped, vram) else Straight(vram, t.mapped)
  }

  /** All pages that a list of transfers copies, in order. */
  function Flat(ts: seq<Transfer>): seq<Copy> {
    if ts == [] then [] else Flat(ts[..|ts| - 1]) + Copies(ts[|ts| - 1])
  }

  lemma {:induction false} FlatConcat(a: seq<Transfer>, b: seq<Transfer>)
    ensures Flat(a + b) == Flat(a) + Flat(b)
  {
    hide Copies;
    if b == [] {
      assert a + b == a;
    } else {
      FlatConcat(a, b[..|b| - 1]);
      assert (a + b)[..|a + b| - 1] == a + b[..|b| - 1];
    }
  }

  lemma FlatSnoc(ts: seq<Transfer>, t: Transfer)
    ensures Flat(ts + [t]) == Flat(ts) + Copies(t)
  {
    assert (ts + [t])[..|ts|] == ts;
  }

  /** The copies of the first pages of a batch. */
  function Through(d: Direction, sys: seq<nat>, vram: seq<nat>, n: nat): seq<Copy>
    requires n <= |sys| == |vram|
  {
    if d == ToVram then Straight(sys[..n], vram[..n]) else Straight(vram[..n], sys[..n])
  }

  /** One more transfer of a batch that is contiguous in VRAM. */
  lemma TransferGoesOn(d: Direction, sys: seq<nat>, vram: seq<nat>, b: nat, e: nat)
    requires b < e <= |sys| == |vram| && InARow(vram)
    ensures Through(d, sys, vram, e) == Through(d, sys, vram, b) + Copies(Transfer(d, sys[b..e], vram[b]))
  {
    assert Row(vram[b], e - b) == vram[b..e];
    StraightSplit(sys, vram, b, e);
    StraightSplit(vram, sys, b, e);
  }

  lemma NothingCopied(d: Direction, sys: seq<nat>, vram: seq<nat>)
    requires |sys| == |vram|
    ensures Flat([]) == Through(d, sys, vram, 0)
  {
  }

  /** Every transfer goes the right way, moves something, and fits the window of 512 pages. */
  predicate ThroughWindow(d: Direction, ts: seq<Transfer>) {
    forall t <- ts :: t.direction == d && 0 < |t.mapped| <= 512
  }

  /**
    svm_migrate_copy_memory_gart: split by the window size, every page is copied once and
    to its own place, given that the batch is contiguous in VRAM. No more transfers are
    made than it takes.
   */
  method CopyMemoryGart(d: Direction, sys: seq<nat>, vram: seq<nat>) returns (log: seq<Transfer>)
    requires |sys| == |vram| && InARow(vram)
    ensures Flat(log) == if d == ToVram then Straight(sys, vram) else Straight(vram, sys)
    ensures ThroughWindow(d, log) && |log| == (|sys| + 511) / 512
  {
    hide Flat, Copies, InARow;
    log := [];
    var done := 0;
    NothingCopied(d, sys, vram);
    while done < |sys|
      invariant 0 <= done <= |sys| && done == (if |log| * 512 < |sys| then |log| * 512 else |sys|)
      invariant |log| * 512 < |sys| + 512
      invariant ThroughWindow(d, log)
      invariant Flat(log) == Through(d, sys, vram, done)
    {
      var size := Min(GTT_MAX_PAGES, |sys| - done);
      var t := Transfer(d, sys[done..done + size], vram[done]);
      TransferGoesOn(d, sys, vram, done, done + size);
      FlatSnoc(log, t);
      log := log + [t];
      done := done + size;
    }
    assert sys[..done] == sys && vram[..done] == vram;
  }

  /** The reference: every eligible page from its source to its destination, one after the other. */
  function PageByPage(pages: seq<Option<nat>>, dst: seq<nat>): seq<Copy>
    requires |pages| == |dst|
  {
    if pages == [] then [] else
      var n := |pages| - 1;
      PageByPage(pages[..n], dst[..n]) + if pages[n].None? then [] else [Copy(pages[n].value, dst[n])]
  }

  /** The page is among those to be copied, and this is its copy. */
  predicate Wanted(pages: seq<Option<nat>>, dst: seq<nat>, i: nat, c: Copy) {
    i < |pages| == |dst| && pages[i].Some? && c == Copy(pages[i].value, dst[i])
  }

  /**
    What the reference amounts to, with distinct destinations: each eligible page is copied
    from its source to its own destination exactly once, and nothing else is.
   */
  lemma {:induction false} EachPageOnce(pages: seq<Option<nat>>, dst: seq<nat>)
    requires |pages| == |dst| && Distinct(dst)
    ensures Distinct(PageByPage(pages, dst))
    ensures forall c :: c in PageByPage(pages, dst) <==> exists i: nat :: Wanted(pages, dst, i, c)
  {
    if pages != [] {
      var n := |pages| - 1;
      EachPageOnce(pages[..n], dst[..n]);
      var front, all := PageByPage(pages[..n], dst[..n]), PageByPage(pages, dst);
      forall c ensures c in all <==> exists i: nat :: Wanted(pages, dst, i, c) {
        WantedSplits(pages, dst, pages[..n], dst[..n], c);
      }
      if pages[n].Some? {
        NewPlace(pages[..n], dst[..n], pages[n].value, dst[n]);
        assert Copy(pages[n].value, dst[n]) !in front;
      }
    }
  }

  lemma NewPlace(pages: seq<Option<nat>>, dst: seq<nat>, from: nat, to: nat)
    requires |pages| == |dst| && to !in dst
    ensures forall i: nat :: !Wanted(pages, dst, i, Copy(from, to))
  {
  }

  lemma WantedSplits(pages: seq<Option<nat>>, dst: seq<nat>, pages1: seq<Option<nat>>, dst1: seq<nat>, c: Copy)
    requires |pages| == |dst| > 0 && pages1 == pages[..|pages| - 1] && dst1 == dst[..|dst| - 1]
    ensures (exists i: nat :: Wanted(pages, dst, i, c))
       <==> (exists i: nat :: Wanted(pages1, dst1, i, c)) || Wanted(pages, dst, |pages| - 1, c)
  {
    if i: nat :| Wanted(pages, dst, i, c) {
      assert i == |pages| - 1 || Wanted(pages1, dst1, i, c);
    }
    if i: nat :| Wanted(pages1, dst1, i, c) {
      assert Wanted(pages, dst, i, c);
    }
  }

  /** Pages `b` up to `e` are all eligible, with the sources written down for them. */
  ghost predicate Eligible(pages: seq<Option<nat>>, src: seq<nat>, b: nat, e: nat) {
    b <= e <= |pages| && e <= |src| && forall k :: b <= k < e ==> pages[k] == Some(src[k])
  }

  /** A batch is what the reference does for the same pages. */
  lemma {:induction false} BatchIsPaged(pages: seq<Option<nat>>, src: seq<nat>, dst: seq<nat>, b: nat, e: nat)
    requires Eligible(pages, src, b, e) && e <= |dst|
    ensures PageByPage(pages[..e], dst[..e])
         == PageByPage(pages[..b], dst[..b]) + Straight(src[b..e], dst[b..e])
  {
    if b < e {
      BatchIsPaged(pages, src, dst, b, e - 1);
      assert pages[..e][..e - 1] == pages[..e - 1] && dst[..e][..e - 1] == dst[..e - 1];
      assert Straight(src[b..e], dst[b..e]) == Straight(src[b..e - 1], dst[b..e - 1]) + [Copy(src[e - 1], dst[e - 1])];
    }
  }

  /** The first `b` pages are copied, as the reference would have. */
  ghost predicate Copied(pages: seq<Option<nat>>, dst: seq<nat>, b: nat, log: seq<Transfer>) {
    b <= |pages| && b <= |dst| && Flat(log) == PageByPage(pages[..b], dst[..b])
  }

  lemma HoleIsSkipped(pages: seq<Option<nat>>, dst: seq<nat>, i: nat, log: seq<Transfer>)
    requires Copied(pages, dst, i, log) && i < |pages| && i < |dst| && pages[i].None?
    ensures Copied(pages, dst, i + 1, log)
  {
    assert pages[..i + 1][..i] == pages[..i] && dst[..i + 1][..i] == dst[..i];
  }

  /** Destinations written later do not matter. */
  lemma CopiedStays(pages: seq<Option<nat>>, dst: seq<nat>, x: nat, b: nat, log: seq<Transfer>)
    requires Copied(pages, dst, b, log)
    ensures Copied(pages, dst + [x], b, log)
  {
    assert (dst + [x])[..b] == dst[..b];
  }

  lemma EligibleStays(pages: seq<Option<nat>>, src: seq<nat>, x: nat, b: nat)
    requires Eligible(pages, src, b, |src|)
    ensures Eligible(pages, src + [x], b, |src|)
    ensures |src| < |pages| && pages[|src|] == Some(x) ==> Eligible(pages, src + [x], b, |src| + 1)
  {
  }

  /** Copy the batch that ends at page `e`. */
  method Flush(d: Direction, pages: seq<Option<nat>>, src: seq<nat>, dst: seq<nat>, b: nat, e: nat, log: seq<Transfer>)
    returns (log1: seq<Transfer>)
    requires Eligible(pages, src, b, e) && e <= |dst| && Copied(pages, dst, b, log)
    requires InARow(if d == ToVram then dst[b..e] else src[b..e]) && ThroughWindow(d, log)
    ensures Copied(pages, dst, e, log1) && ThroughWindow(d, log1)
  {
    var copies;
    if d == ToVram {
      copies := CopyMemoryGart(ToVram, src[b..e], dst[b..e]);
    } else {
      copies := CopyMemoryGart(ToRam, dst[b..e], src[b..e]);
    }
    BatchIsPaged(pages, src, dst, b, e);
    FlatConcat(log, copies);
    log1 := log + copies;
  }

  // ----- towards VRAM

  /** The destinations so far are the resource's pages in order. */
  ghost predicate Placed(blocks: seq<Block>, offset: nat, dst: seq<nat>) {
    offset + |dst| <= Total(blocks) && forall k :: 0 <= k < |dst| ==> dst[k] == PageAt(blocks, offset + k)
  }

  /** A batch taken from one block is contiguous. */
  lemma BatchInBlock(blocks: seq<Block>, offset: nat, dst: seq<nat>, c: Cursor, b: nat, e: nat, end: nat)
    requires Placed(blocks, offset, dst) && b <= e <= |dst| && CursorAt(blocks, c, offset + b, end) && e - b <= c.size
    ensures InARow(dst[b..e])
  {
    forall t | 0 <= t < e - b ensures dst[b..e][t] == c.start + t {
      InBlock(blocks, c, offset + b, end, t);
    }
    assert dst[b..e] == Row(c.start, e - b);
  }

  /**
    svm_migrate_copy_to_vram without errors. Every eligible page is copied exactly once,
    to the page of the resource with its own index, whatever holes and block boundaries
    lie in between.
   */
  method CopyToVram(blocks: seq<Block>, offset: nat, pages: seq<Option<nat>>) returns (dst: seq<nat>, log: seq<Transfer>)
    requires NonEmpty(blocks) && pages != [] && offset + |pages| <= Total(blocks)
    ensures |dst| == |pages| && Placed(blocks, offset, dst)
    ensures Flat(log) == PageByPage(pages, dst) && ThroughWindow(ToVram, log)
  {
    hide Copied, Eligible, PageByPage, CursorAt, ResNext, InARow, Placed, NonEmpty;
    var n := |pages|;
    ghost var end := offset + n;
    FirstAt(blocks, offset, n);
    FirstNonEmpty(blocks, offset, n);
    var cursor := ResFirst(blocks, offset, n);
    var src, j: nat := [], 0;
    dst, log := [], [];
    Begin(blocks, offset, pages, cursor);
    for i := 0 to n
      invariant |src| == i && |dst| == i && j <= i && Placed(blocks, offset, dst)
      invariant i < n ==> CursorAt(blocks, cursor, offset + (i - j), end) && NonEmpty(cursor.rest) && j < cursor.size
      invariant Eligible(pages, src, i - j, i) && InARow(dst[i - j..i])
      invariant Copied(pages, dst, i - j, log) && ThroughWindow(ToVram, log)
    {
      ghost var b := i - j;
      PlaceOne(blocks, offset, dst, cursor, b, end);
      CopiedStays(pages, dst, cursor.start + j, b, log);
      NextAt(blocks, cursor, offset + b, end, j + 1);
      SliceStays(dst, cursor.start + j, b);
      dst := dst + [cursor.start + j];
      if pages[i].None? {
        EligibleStays(pages, src, 0, b);
        src := src + [0];
        log := Flush(ToVram, pages, src, dst, i - j, i, log);
        HoleIsSkipped(pages, dst, i, log);
        cursor := ResNext(cursor, j + 1);
        j := 0;
        EmptyBatch(blocks, cursor, pages, src, dst, i + 1, offset, end);
      } else {
        EligibleStays(pages, src, pages[i].value, b);
        src := src + [pages[i].value];
        if j >= cursor.size - 1 && i < n - 1 {
          log := Flush(ToVram, pages, src, dst, i - j, i + 1, log);
          cursor := ResNext(cursor, j + 1);
          j := 0;
          EmptyBatch(blocks, cursor, pages, src, dst, i + 1, offset, end);
        } else {
          j := j + 1;
        }
      }
    }
    log := Flush(ToVram, pages, src, dst, n - j, n, log);
    AllCopied(pages, dst, log);
  }

  lemma SliceStays(s: seq<nat>, x: nat, b: nat)
    requires b <= |s|
    ensures (s + [x])[b..|s|] == s[b..|s|]
  {
    assert forall t :: 0 <= t < |s| - b ==> (s + [x])[b..|s|][t] == s[b..|s|][t];
  }

  lemma Begin(blocks: seq<Block>, offset: nat, pages: seq<Option<nat>>, c: Cursor)
    requires pages != [] && offset + |pages| <= Total(blocks)
    requires CursorAt(blocks, c, offset, offset + |pages|) && NonEmpty(c.rest)
    ensures Placed(blocks, offset, []) && Eligible(pages, [], 0, 0) && InARow([]) && Copied(pages, [], 0, []) && c.size > 0
  {
  }

  lemma AllCopied(pages: seq<Option<nat>>, dst: seq<nat>, log: seq<Transfer>)
    requires Copied(pages, dst, |pages|, log) && |dst| == |pages|
    ensures Flat(log) == PageByPage(pages, dst)
  {
    assert pages[..|pages|] == pages && dst[..|pages|] == dst;
  }

  /** The next destination is the resource's next page, and extends the batch. */
  lemma PlaceOne(blocks: seq<Block>, offset: nat, dst: seq<nat>, c: Cursor, b: nat, end: nat)
    requires Placed(blocks, offset, dst) && b <= |dst| && CursorAt(blocks, c, offset + b, end) && |dst| - b < c.size
    ensures var dst1 := dst + [c.start + (|dst| - b)];
      Placed(blocks, offset, dst1) && InARow(dst1[b..|dst1|])
  {
    var dst1 := dst + [c.start + (|dst| - b)];
    InBlock(blocks, c, offset + b, end, |dst| - b);
    BatchInBlock(blocks, offset, dst1, c, b, |dst1|, end);
  }

  lemma EmptyBatch(blocks: seq<Block>, c: Cursor, pages: seq<Option<nat>>, src: seq<nat>, dst: seq<nat>, i: nat,
                   offset: nat, end: nat)
    requires i <= |pages| && i == |src| == |dst|
    requires i < |pages| ==> CursorAt(blocks, c, offset + i, end) && NonEmpty(c.rest)
    ensures Eligible(pages, src, i, i) && InARow(dst[i..i]) && (i < |pages| ==> 0 < c.size)
  {
  }

  lemma {:induction false} FirstNonEmpty(blocks: seq<Block>, start: nat, size: nat)
    requires NonEmpty(blocks) && start < Total(blocks)
    ensures NonEmpty(ResFirst(blocks, start, size).rest)
  {
    if start >= blocks[0].size {
      FirstNonEmpty(blocks[1..], start - blocks[0].size, size);
    }
  }

  // ----- towards system memory

  /**
    svm_migrate_copy_to_ram without errors. `pages` are the VRAM pages still to be moved,
    `ram` the system pages they get. A batch ends at a hole or where VRAM is not
    contiguous, and every eligible page is copied exactly once.
   */
  method CopyToRam(pages: seq<Option<nat>>, ram: seq<nat>) returns (log: seq<Transfer>)
    requires |ram| == |pages|
    ensures Flat(log) == PageByPage(pages, ram) && ThroughWindow(ToRam, log)
  {
    hide Copied, Eligible, PageByPage, InARow;
    var n := |pages|;
    var src, j: nat := [], 0;
    log := [];
    NoneYet(pages, src, ram, 0);
    for i := 0 to n
      invariant |src| == i && j <= i
      invariant Eligible(pages, src, i - j, i) && InARow(src[i - j..i])
      invariant Copied(pages, ram, i - j, log) && ThroughWindow(ToRam, log)
    {
      if pages[i].None? {
        log := Flush(ToRam, pages, src, ram, i - j, i, log);
        HoleIsSkipped(pages, ram, i, log);
        src := src + [0];
        j := 0;
        NoneYet(pages, src, ram, i + 1);
      } else {
        var addr := pages[i].value;
        if j > 0 && addr != src[i - 1] + 1 {
          log := Flush(ToRam, pages, src, ram, i - j, i, log);
          j := 0;
          NoneYet(pages, src, ram, i);
        }
        EligibleStays(pages, src, addr, i - j);
        RowGrows(src[i - j..i], addr);
        assert (src + [addr])[i - j..i + 1] == src[i - j..i] + [addr];
        src := src + [addr];
        j := j + 1;
      }
    }
    log := Flush(ToRam, pages, src, ram, n - j, n, log);
    AllCopied(pages, ram, log);
  }

  /** An empty batch. */
  lemma NoneYet(pages: seq<Option<nat>>, src: seq<nat>, ram: seq<nat>, i: nat)
    requires i <= |pages| == |ram| && i == |src|
    ensures Eligible(pages, src, i, i) && InARow(src[i..i])
    ensures i == 0 ==> Copied(pages, ram, 0, [])
  {
  }

  lemma RowGrows(row: seq<nat>, x: nat)
    requires InARow(row) && (row != [] ==> x == row[|row| - 1] + 1)
    ensures InARow(row + [x])
  {
    if row != [] {
      assert row + [x] == Row(row[0], |row| + 1);
    } else {
      assert row + [x] == Row(x, 1);
    }
  }
}
