/**
  The GTT sub-allocator: a bitmap of chunks, a first-fit search for a contiguous run that
  restarts whenever it meets an allocated chunk, and the objects handed out.
 */
module GttSubAllocator {
  import opened Arithmetic


  datatype Error = Einval | Enomem

  datatype Result<T> = Ok(value: T) | Err(error: Error)

  /** struct kfd_mem_obj: an inclusive range of chunks. */
  datatype MemObj = MemObj(start: nat, end: nat)

  predicate Covers(o: MemObj, k: nat) { o.start <= k <= o.end }

  // ----- sizes in chunks

  /** Chunks a request occupies, one chunk after the other. */
  function Chunks(size: nat, chunk: nat): nat
    requires chunk > 0
  {
    if size == 0 then 0 else if size <= chunk then 1 else 1 + Chunks(size - chunk, chunk)
  }

  /** That is the size divided by the chunk size, rounded up. */
  lemma {:induction false} ChunksExact(size: nat, chunk: nat)
    requires chunk > 0 && size > 0
    ensures Chunks(size, chunk) > 0
    ensures (Chunks(size, chunk) - 1) * chunk < size <= Chunks(size, chunk) * chunk
  {
    if size > chunk {
      ChunksExact(size - chunk, chunk);
      MulStep(Chunks(size - chunk, chunk) - 1, chunk);
      MulStep(Chunks(size - chunk, chunk), chunk);
    }
  }

  // ----- free runs

  predicate FreeRun(bits: seq<bool>, s: nat, n: nat) {
    s + n <= |bits| && forall k :: s <= k < s + n ==> !bits[k]
  }

  /** find_next_zero_bit */
  function NextZero(bits: seq<bool>, from: nat): (r: nat)
    requires from <= |bits|
    ensures from <= r <= |bits|
    ensures r < |bits| ==> !bits[r]
    ensures forall k :: from <= k < r ==> bits[k]
    decreases |bits| - from
  {
    if from == |bits| || !bits[from] then from else NextZero(bits, from + 1)
  }

  /** Some run is long enough. */
  ghost predicate Fits(bits: seq<bool>, n: nat) { exists s: nat :: FreeRun(bits, s, n) }

  /** No run starting before `from` is long enough. */
  ghost predicate NoneBefore(bits: seq<bool>, from: nat, n: nat) {
    forall s: nat :: s < from ==> !FreeRun(bits, s, n)
  }

  lemma SkipAllocated(bits: seq<bool>, from: nat, n: nat)
    requires from <= |bits| && n > 0 && NoneBefore(bits, from, n)
    ensures NoneBefore(bits, NextZero(bits, from), n)
    ensures NextZero(bits, from) == |bits| ==> !Fits(bits, n)
  {
    var next := NextZero(bits, from);
    forall s: nat | s < next || next == |bits| ensures !FreeRun(bits, s, n) {
      if from <= s < next {
        assert bits[s];
      }
    }
  }

  /** A run cut off at `stop`, by an allocated chunk or the end, rules out every start up to there. */
  lemma CutOff(bits: seq<bool>, start: nat, stop: nat, n: nat)
    requires NoneBefore(bits, start, n) && start <= stop <= |bits| && stop - start < n
    requires stop < |bits| ==> bits[stop]
    ensures NoneBefore(bits, stop, n)
    ensures stop == |bits| ==> !Fits(bits, n)
  {
    forall s: nat | s < stop || stop == |bits| ensures !FreeRun(bits, s, n) {
      if start <= s && stop < |bits| {
        assert bits[stop];
      }
    }
  }

  /** An object's bytes end before any chunk behind it. */
  lemma BytesFit(o: MemObj, limit: nat, chunk: nat, size: nat)
    requires chunk > 0 && size > 0 && o.start <= o.end < limit && o.end - o.start + 1 == Chunks(size, chunk)
    ensures o.start * chunk + size <= limit * chunk
  {
    ChunksExact(size, chunk);
    var n := Chunks(size, chunk);
    MulMono(o.start + n, limit, chunk);
    Distribute(o.start, n, chunk);
  }

  /** A request larger than the buffer has no run. */
  lemma TooLarge(bits: seq<bool>, size: nat, chunk: nat)
    requires chunk > 0 && size > 0
    ensures size > |bits| * chunk ==> !Fits(bits, Chunks(size, chunk))
  {
    ChunksExact(size, chunk);
    var n := Chunks(size, chunk);
    if n <= |bits| {
      MulMono(n, |bits|, chunk);
    }
  }

  datatype Growth = Complete | Interrupted | EndOfBuffer

  class GttSubAllocator {
    const chunkSize: nat
    const bitmap: array<bool>
    ghost var live: set<MemObj>

    /** Live objects lie inside the buffer and apart, and the bitmap is exactly their union. */
    ghost predicate Valid()
      reads this, bitmap
    {
      && chunkSize > 0 && bitmap.Length * chunkSize < TWO32
      && (forall o <- live :: o.start <= o.end < bitmap.Length)
      && (forall o <- live, k: nat :: Covers(o, k) ==> k < bitmap.Length && bitmap[k])
      && (forall k :: 0 <= k < bitmap.Length && bitmap[k] ==> exists o <- live :: Covers(o, k))
      && (forall o <- live, u <- live, k: nat :: Covers(o, k) && Covers(u, k) ==> o == u)
    }

    /** kfd_gtt_sa_init for a buffer that is not refused. */
    constructor (bufSize: nat, chunk: nat)
      requires 0 < chunk <= bufSize < TWO32
      ensures Valid() && fresh(bitmap) && live == {} && chunkSize == chunk
      ensures bitmap.Length * chunk <= bufSize < (bitmap.Length + 1) * chunk
    {
      chunkSize := chunk;
      bitmap := new bool[bufSize / chunk](_ => false);
      live := {};
      new;
      assert bufSize == (bufSize / chunk) * chunk + bufSize % chunk;
      assert (bitmap.Length + 1) * chunk == bitmap.Length * chunk + chunk;
    }

    /**
      The search: the lowest start of a long enough free run, or failure only when there is
      no such run anywhere.
     */
    method Search(size: nat) returns (r: Result<MemObj>)
      requires size > 0 && chunkSize > 0
      ensures var n := Chunks(size, chunkSize);
        match r
        case Ok(o) =>
          && o.start <= o.end && o.end - o.start + 1 == n
          && FreeRun(bitmap[..], o.start, n) && NoneBefore(bitmap[..], o.start, n)
        case Err(e) => e == Enomem && !Fits(bitmap[..], n)
    {
      ghost var n := Chunks(size, chunkSize);
      ghost var bits := bitmap[..];
      ChunksExact(size, chunkSize);
      var startSearch := 0;
      while true
        invariant 0 <= startSearch <= |bits| && NoneBefore(bits, startSearch, n)
        decreases |bits| - startSearch
      {
        var start := NextZero(bitmap[..], startSearch);
        SkipAllocated(bits, startSearch, n);
        if start == bitmap.Length {
          return Err(Enomem);
        }
        if size <= chunkSize {
          return Ok(MemObj(start, start));
        }
        var outcome, end := Extend(start, size);
        if outcome == Complete {
          return Ok(MemObj(start, end));
        }
        CutOff(bits, start, end, n);
        if outcome == EndOfBuffer {
          return Err(Enomem);
        }
        startSearch := end;
      }
    }

    /** The inner loop: try to grow the run that begins with the free chunk `start`. */
    method Extend(start: nat, size: nat) returns (outcome: Growth, end: nat)
      requires 0 < chunkSize < size && start < bitmap.Length && !bitmap[start]
      ensures start <= end <= bitmap.Length
      ensures outcome == Complete ==>
        end - start + 1 == Chunks(size, chunkSize) && FreeRun(bitmap[..], start, end - start + 1)
      ensures outcome != Complete ==> start < end && end - start < Chunks(size, chunkSize)
      ensures outcome == Interrupted ==> end < bitmap.Length && bitmap[end]
      ensures outcome == EndOfBuffer <==> end == bitmap.Length
    {
      ghost var n := Chunks(size, chunkSize);
      var found := start;
      var curSize := size - chunkSize;
      while curSize > 0
        invariant start <= found < bitmap.Length && FreeRun(bitmap[..], start, found - start + 1)
        invariant 0 <= curSize && Chunks(curSize, chunkSize) == n - (found - start + 1)
      {
        found := found + 1;
        var next := NextZero(bitmap[..], found);
        if next != found {
          return Interrupted, found;
        }
        if found == bitmap.Length {
          return EndOfBuffer, found;
        }
        curSize := if curSize <= chunkSize then 0 else curSize - chunkSize;
      }
      return Complete, found;
    }

    /** bitmap_set and bitmap_clear on an object's range. */
    method Mark(o: MemObj, value: bool)
      requires o.start <= o.end < bitmap.Length
      modifies bitmap
      ensures forall k: nat :: k < bitmap.Length ==> bitmap[k] == if Covers(o, k) then value else old(bitmap[k])
    {
      for i := o.start to o.end + 1
        invariant forall k: nat :: k < bitmap.Length ==>
          bitmap[k] == if o.start <= k < i then value else old(bitmap[k])
      {
        bitmap[i] := value;
      }
    }

    /**
      kfd_gtt_sa_allocate. `objOk` is whether the object itself could be allocated. Memory
      runs out exactly when the object cannot be allocated or no free run is long enough
      (a request larger than the buffer is a case of that); every failure leaves the
      bitmap alone, and an object lies inside the buffer.
     */
    method Allocate(size: nat, objOk: bool) returns (r: Result<MemObj>)
      requires Valid()
      modifies this`live, bitmap
      ensures Valid()
      ensures r == Err(Einval) <==> size == 0
      ensures r == Err(Enomem) <==>
        size > 0 && (!objOk || !Fits(old(bitmap[..]), Chunks(size, chunkSize)))
      ensures r.Err? ==> live == old(live) && bitmap[..] == old(bitmap[..])
      ensures r.Ok? ==>
        && r.value !in old(live) && live == old(live) + {r.value}
        && r.value.start <= r.value.end && r.value.end - r.value.start + 1 == Chunks(size, chunkSize)
        && FreeRun(old(bitmap[..]), r.value.start, Chunks(size, chunkSize))
        && NoneBefore(old(bitmap[..]), r.value.start, Chunks(size, chunkSize))
        && r.value.start * chunkSize + size <= bitmap.Length * chunkSize < TWO32
    {
      if size == 0 {
        return Err(Einval);
      }
      TooLarge(bitmap[..], size, chunkSize);
      if size > bitmap.Length * chunkSize || !objOk {
        return Err(Enomem);
      }
      r := Search(size);
      if r.Ok? {
        var o := r.value;
        assert Fits(old(bitmap[..]), Chunks(size, chunkSize)) by {
          assert FreeRun(old(bitmap[..]), o.start, Chunks(size, chunkSize));
        }
        Fresh(o);
        BytesFit(o, bitmap.Length, chunkSize, size);
        Mark(o, true);
        live := live + {o};
      }
    }

    /** A free range is apart from every live object. */
    lemma Fresh(o: MemObj)
      requires Valid() && o.start <= o.end && FreeRun(bitmap[..], o.start, o.end - o.start + 1)
      ensures o !in live && forall u <- live, k: nat :: Covers(u, k) ==> !Covers(o, k)
    {
      assert Covers(o, o.start) && !bitmap[..][o.start];
      forall u, k: nat | u in live && Covers(u, k) ensures !Covers(o, k) {
        assert bitmap[..][k];
      }
    }

    /** kfd_gtt_sa_free; freeing nothing does nothing. */
    method Free(obj: Result<MemObj>)
      requires Valid() && (obj.Ok? ==> obj.value in live)
      modifies this`live, bitmap
      ensures Valid()
      ensures obj.Err? ==> live == old(live) && bitmap[..] == old(bitmap[..])
      ensures obj.Ok? ==> live == old(live) - {obj.value}
    {
      if obj.Ok? {
        var o := obj.value;
        Mark(o, false);
        live := live - {o};
      }
    }
  }

  /** kfd_gtt_sa_init: empty buffers, empty chunks and buffers below one chunk are refused. */
  method Init(bufSize: nat, chunk: nat, bitmapOk: bool) returns (r: Result<GttSubAllocator>)
    requires bufSize < TWO32
    ensures r == Err(Einval) <==> bufSize < chunk || bufSize == 0 || chunk == 0
    ensures r == Err(Enomem) <==> 0 < chunk <= bufSize && !bitmapOk
    ensures r.Ok? ==> fresh(r.value) && fresh(r.value.bitmap) && r.value.Valid() && r.value.live == {}
    ensures r.Ok? ==>
      && r.value.chunkSize == chunk
      && r.value.bitmap.Length * chunk <= bufSize < r.value.bitmap.Length * chunk + chunk
  {
    if bufSize < chunk || bufSize == 0 || chunk == 0 {
      return Err(Einval);
    }
    if !bitmapOk {
      return Err(Enomem);
    }
    var a := new GttSubAllocator(bufSize, chunk);
    return Ok(a);
  }

  /** Objects with disjoint ranges have disjoint byte ranges. */
  lemma BytesApart(o: MemObj, u: MemObj, chunk: nat, size: nat)
    requires chunk > 0 && size > 0 && o.start <= o.end && u.start <= u.end
    requires forall k: nat :: Covers(o, k) ==> !Covers(u, k)
    requires o.end - o.start + 1 == Chunks(size, chunk) && o.start < u.start
    ensures o.start * chunk + size <= u.start * chunk
  {
    assert Covers(u, u.start);
    assert !Covers(o, u.start);
    BytesFit(o, u.start, chunk, size);
  }
}
