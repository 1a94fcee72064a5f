/**
  The kernel queue ring through which the driver talks to the hardware scheduler (HIQ):
  a producer with a pending and a submitted write pointer, NOP padding at the wrap,
  rollback of what was not submitted, and a consumer that follows.

  The refinement is to an ever-growing log of dwords. Positions in the log are unbounded;
  the ring holds position k at index k % size.
 */
module KernelQueue {
  import opened Basics
  import opened Arithmetic


  // ----- what the producer means to send

  /** Some padding, then one packet. */
  datatype Frame = Frame(pad: nat, packet: seq<int>)

  function Nops(n: nat, nop: int): seq<int> { seq(n, _ => nop) }

  function Flatten(fs: seq<Frame>, nop: int): seq<int> {
    if fs == [] then []
    else Flatten(fs[..|fs| - 1], nop) + Nops(fs[|fs| - 1].pad, nop) + fs[|fs| - 1].packet
  }

  function Packets(fs: seq<Frame>): seq<seq<int>> {
    if fs == [] then [] else Packets(fs[..|fs| - 1]) + [fs[|fs| - 1].packet]
  }

  lemma FlattenSnoc(fs: seq<Frame>, f: Frame, nop: int)
    ensures Flatten(fs + [f], nop) == Flatten(fs, nop) + Nops(f.pad, nop) + f.packet
    ensures Packets(fs + [f]) == Packets(fs) + [f.packet]
  {
    assert (fs + [f])[..|fs|] == fs;
  }

  lemma {:induction false} FlattenPrefix(fs: seq<Frame>, n: nat, nop: int)
    requires n <= |fs|
    ensures Flatten(fs[..n], nop) <= Flatten(fs, nop)
  {
    if n < |fs| {
      var r := fs[..|fs| - 1];
      FlattenPrefix(r, n, nop);
      assert r[..n] == fs[..n];
    } else {
      assert fs[..n] == fs;
    }
  }

  /** The last frame's packet ends the log, beyond what is submitted. */
  lemma LastFrame(fs: seq<Frame>, n: nat, nop: int)
    requires n < |fs|
    ensures var f := fs[|fs| - 1];
      |Flatten(fs[..n], nop)| + f.pad + |f.packet| <= |Flatten(fs, nop)|
  {
    var init := fs[..|fs| - 1];
    FlattenPrefix(init, n, nop);
    assert init[..n] == fs[..n];
  }

  /** Acquiring appends a frame and leaves the submitted ones alone. */
  lemma FrameAdded(fs: seq<Frame>, n: nat, f: Frame, log: seq<int>, submitted: nat, nop: int)
    requires n <= |fs| && submitted <= |log|
    requires Flatten(fs, nop) == log && Flatten(fs[..n], nop) == log[..submitted]
    ensures var log1 := log + Nops(f.pad, nop) + f.packet;
      Flatten(fs + [f], nop) == log1 && Flatten((fs + [f])[..n], nop) == log1[..submitted]
  {
    FlattenSnoc(fs, f, nop);
    assert (fs + [f])[..n] == fs[..n];
    assert (log + Nops(f.pad, nop) + f.packet)[..submitted] == log[..submitted];
  }

  function Refill(fs: seq<Frame>, packet: seq<int>): seq<Frame>
    requires fs != []
  {
    fs[..|fs| - 1] + [fs[|fs| - 1].(packet := packet)]
  }

  lemma FrameRewritten(fs: seq<Frame>, n: nat, packet: seq<int>, log: seq<int>, submitted: nat, nop: int)
    requires n < |fs| && submitted <= |log| && |fs[|fs| - 1].packet| == |packet|
    requires Flatten(fs, nop) == log && Flatten(fs[..n], nop) == log[..submitted]
    ensures var fs1 := Refill(fs, packet);
      var log1 := log[..|log| - |packet|] + packet;
      && |packet| <= |log| - submitted
      && Flatten(fs1, nop) == log1 && Flatten(fs1[..n], nop) == log1[..submitted]
  {
    var init, f := fs[..|fs| - 1], fs[|fs| - 1];
    LastFrame(fs, n, nop);
    FlattenSnoc(init, f, nop);
    FlattenSnoc(init, f.(packet := packet), nop);
    assert fs == init + [f];
    var fs1 := init + [f.(packet := packet)];
    assert fs1[..n] == fs[..n];
    assert (log[..|log| - |packet|] + packet)[..submitted] == log[..submitted];
  }

  // ----- positions modulo the ring size

  /** The ring index of a log position. */
  function At(k: nat, n: nat): (r: nat)
    requires n > 0
    ensures r < n
  {
    k % n
  }

  lemma AtSum(k: nat, d: nat, n: nat)
    requires n > 0
    ensures At(At(k, n) + d, n) == At(k + d, n)
  {
    var x := k % n + d;
    assert k == (k / n) * n + k % n;
    assert x == (x / n) * n + x % n;
    assert (k / n) * n + (x / n) * n == (k / n + x / n) * n;
    ModUnique(k / n + x / n, x % n, n);
  }

  lemma AtSmall(k: nat, n: nat)
    requires k < n
    ensures At(k, n) == k
  {
    ModUnique(0, k, n);
  }

  lemma AtAdd(k: nat, d: nat, n: nat)
    requires n > 0 && At(k, n) + d < n
    ensures At(k + d, n) == At(k, n) + d
  {
    AtSum(k, d, n);
    AtSmall(At(k, n) + d, n);
  }

  lemma AtWrap(k: nat, d: nat, n: nat)
    requires n > 0 && n <= At(k, n) + d < 2 * n
    ensures At(k + d, n) == At(k, n) + d - n
  {
    AtSum(k, d, n);
    ModUnique(1, At(k, n) + d - n, n);
  }

  /** Fewer than a ring's worth of consecutive positions never share a place. */
  lemma AtDistinct(a: nat, b: nat, n: nat)
    requires a < b < a + n
    ensures At(a, n) != At(b, n)
  {
    hide At;
    if At(a, n) + (b - a) < n {
      AtAdd(a, b - a, n);
    } else {
      AtWrap(a, b - a, n);
    }
  }

  /** How far a later position is ahead, read off two ring indices. */
  lemma AtDistance(a: nat, b: nat, n: nat)
    requires a <= b < a + n
    ensures b - a == if At(a, n) <= At(b, n) then At(b, n) - At(a, n) else At(b, n) + n - At(a, n)
  {
    hide At;
    if At(a, n) + (b - a) < n {
      AtAdd(a, b - a, n);
    } else {
      AtWrap(a, b - a, n);
    }
  }

  /** The pointers meet only when nothing is unread: writing never catches up with reading. */
  lemma MeetOnlyWhenEmpty(read: nat, written: nat, n: nat)
    requires read <= written < read + n
    ensures At(read, n) == At(written, n) <==> read == written
  {
    hide At;
    if read < written {
      AtDistinct(read, written, n);
    }
  }

  lemma ModOfMultiple(k: nat, m: nat, n: nat)
    requires n > 0 && m > 0 && m % n == 0
    ensures (k % m) % n == k % n
  {
    var c := m / n;
    assert m == c * n;
    var j := k % m;
    assert k == (k / m) * m + j;
    assert (k / m) * (c * n) == ((k / m) * c) * n;
    assert j == (j / n) * n + j % n;
    assert ((k / m) * c) * n + (j / n) * n == ((k / m) * c + j / n) * n;
    ModUnique((k / m) * c + j / n, j % n, n);
  }

  /**
    Rolling back reads the low half of the 64-bit pointer. It lands on the right dword
    whatever the pointer is, exactly when the ring size divides 2^32.
   */
  lemma RollbackCongruent(n: nat)
    requires n > 0
    ensures (forall w: nat :: ((w % TWO64) % TWO32) % n == w % n) <==> TWO32 % n == 0
  {
    if TWO32 % n == 0 {
      forall w: nat ensures ((w % TWO64) % TWO32) % n == w % n {
        ModOfMultiple(w, TWO64, TWO32);
        ModOfMultiple(w, TWO32, n);
      }
    } else {
      assert ((TWO32 % TWO64) % TWO32) % n != TWO32 % n;
    }
  }

  // ----- when a packet fits

  /**
    A packet is placed contiguously and never closes the gap to the reader: either it ends
    before the end of the ring and before the reader, or the rest of the ring is padded
    and it fits strictly below the reader.
   */
  predicate Fits(rptr: nat, wptr: nat, n: nat, size: nat) {
    || (wptr + n < size && (wptr < rptr ==> wptr + n < rptr))
    || (wptr + n >= size && rptr <= wptr && n < rptr)
  }

  /** The two tests of kq_acquire_packet_buffer. */
  predicate Accepts(rptr: nat, wptr: nat, n: nat, size: nat)
    requires size > 0
  {
    n <= (rptr + size - 1 - wptr) % size && (wptr + n >= size ==> n < rptr)
  }

  lemma AcceptsIffFits(rptr: nat, wptr: nat, n: nat, size: nat)
    requires rptr < size && wptr < size
    ensures Accepts(rptr, wptr, n, size) <==> Fits(rptr, wptr, n, size)
  {
    if rptr <= wptr {
      ModUnique(0, rptr + size - 1 - wptr, size);
    } else {
      ModUnique(1, rptr - 1 - wptr, size);
    }
  }

  /** On a drained ring a packet can be refused only because of where the pointers stand. */
  lemma DrainedAccepts(n: nat, size: nat)
    requires size > 0
    ensures (forall w: nat :: w < size ==> Accepts(w, w, n, size)) <==> 2 * n < size
  {
    forall w: nat | w < size ensures Accepts(w, w, n, size) <==> w + n < size || n < w {
      AcceptsIffFits(w, w, n, size);
    }
    if 2 * n >= size {
      var w := if n < size then n else 0;
      assert !Accepts(w, w, n, size);
    }
  }

  // ----- the ring holds the unread part of the log

  ghost predicate HoldsAt(ring: seq<int>, log: seq<int>, read: nat)
    requires ring != []
  {
    forall k: nat :: read <= k < |log| ==> ring[At(k, |ring|)] == log[k]
  }

  /** Where acquired dwords go: behind the log, or at the start of the ring behind padding. */
  ghost predicate Placed(r0: seq<int>, r1: seq<int>, log: seq<int>, read: nat, nop: int, pad: nat, at: nat, n: nat) {
    && r0 != [] && |r0| == |r1| && at + n < |r0|
    && var w := At(|log|, |r0|);
       if pad == 0 then at == w && r1 == r0
       else at == 0 && pad == |r0| - w && At(read, |r0|) <= w && n < At(read, |r0|) && r1 == r0[..w] + Nops(pad, nop)
  }

  lemma PlacedPositions(r0: seq<int>, r1: seq<int>, log: seq<int>, read: nat, nop: int, pad: nat, at: nat, n: nat, k: nat)
    requires Placed(r0, r1, log, read, nop, pad, at, n) && read <= |log| < read + |r0|
    ensures k < pad ==> At(|log| + k, |r0|) == At(|log|, |r0|) + k
    ensures k <= n ==> At(|log| + pad + k, |r0|) == at + k
    ensures read <= k < |log| && pad > 0 ==> At(k, |r0|) < At(|log|, |r0|)
  {
    hide At;
    var size := |r0|;
    if k < pad {
      AtAdd(|log|, k, size);
    }
    if k <= n {
      if pad > 0 {
        AtWrap(|log|, pad, size);
      }
      AtAdd(|log| + pad, k, size);
    }
    if read <= k < |log| && pad > 0 {
      AtDistance(read, |log|, size);
      AtAdd(read, k - read, size);
    }
  }

  /** Acquiring extends the log and leaves every unread dword alone. */
  lemma HoldsExtend(r0: seq<int>, r1: seq<int>, log: seq<int>, read: nat, nop: int, pad: nat, at: nat, n: nat)
    requires Placed(r0, r1, log, read, nop, pad, at, n) && read <= |log| < read + |r0|
    requires HoldsAt(r0, log, read)
    ensures HoldsAt(r1, log, read)
    ensures HoldsAt(r1, log + Nops(pad, nop) + r1[at..at + n], read)
    ensures At(|log| + pad + n, |r0|) == at + n
  {
    hide At;
    var log1 := log + Nops(pad, nop) + r1[at..at + n];
    forall k: nat | read <= k < |log1| ensures r1[At(k, |r1|)] == log1[k] {
      if k < |log| {
        PlacedPositions(r0, r1, log, read, nop, pad, at, n, k);
      } else if k < |log| + pad {
        PlacedPositions(r0, r1, log, read, nop, pad, at, n, k - |log|);
      } else {
        PlacedPositions(r0, r1, log, read, nop, pad, at, n, k - |log| - pad);
      }
    }
    forall k: nat | read <= k < |log| ensures r1[At(k, |r1|)] == log[k] {
      assert log1[k] == log[k];
    }
    PlacedPositions(r0, r1, log, read, nop, pad, at, n, n);
  }

  /** Writing the last acquired packet changes only that part of the log. */
  lemma HoldsRewrite(r0: seq<int>, log: seq<int>, read: nat, at: nat, packet: seq<int>)
    requires r0 != [] && read <= |log| < read + |r0| && |packet| <= |log| - read
    requires at + |packet| < |r0| && At(|log|, |r0|) == at + |packet|
    requires HoldsAt(r0, log, read)
    ensures var r1 := r0[..at] + packet + r0[at + |packet|..];
      HoldsAt(r1, log[..|log| - |packet|] + packet, read)
  {
    hide At;
    var size, n := |r0|, |packet|;
    var r1 := r0[..at] + packet + r0[at + n..];
    var start := |log| - n;
    var log1 := log[..start] + packet;
    StartAt(start, n, size);
    forall k: nat | read <= k < |log1| ensures r1[At(k, size)] == log1[k] {
      if k >= start {
        AtAdd(start, k - start, size);
      } else {
        Before(k, start, n, size);
        assert r1[At(k, size)] == r0[At(k, size)];
      }
    }
  }

  lemma StartAt(start: nat, n: nat, size: nat)
    requires n < size && n <= At(start + n, size)
    ensures At(start, size) + n == At(start + n, size)
  {
    hide At;
    if At(start, size) + n < size {
      AtAdd(start, n, size);
    } else {
      AtWrap(start, n, size);
    }
  }

  /** Positions before a packet are outside its place in the ring. */
  lemma Before(k: nat, start: nat, n: nat, size: nat)
    requires k < start && start + n < k + size + 1 && At(start, size) + n < size
    ensures At(k, size) < At(start, size) || At(start, size) + n <= At(k, size)
  {
    hide At;
    var j := At(k, size) - At(start, size);
    if 0 <= j < n {
      AtAdd(start, j, size);
      AtDistinct(k, start + j, size);
    }
  }

  class KernelQueue {
    const nop: int
    const eightByteDoorbell: bool
    const ring: array<int>

    var rptr: nat
    var pendingWptr: nat
    var pendingWptr64: nat
    /** The shared write pointer: one dword or, with 8-byte doorbells, two. */
    var wptrMem: nat

    /** Everything acquired so far, and how much of it is submitted and read. */
    ghost var log: seq<int>
    ghost var submitted: nat
    ghost var read: nat
    ghost var frames: seq<Frame>
    ghost var submittedFrames: nat
    /** Everything the consumer has read. */
    ghost var consumed: seq<int>

    ghost predicate Pointers()
      reads this
    {
      && 0 < ring.Length < TWO32
      && (eightByteDoorbell ==> TWO32 % ring.Length == 0)
      && read <= submitted <= |log| < read + ring.Length
      && rptr == At(read, ring.Length)
      && pendingWptr == At(|log|, ring.Length)
      && (eightByteDoorbell ==> pendingWptr64 == At(|log|, TWO64))
      && wptrMem == if eightByteDoorbell then At(submitted, TWO64) else At(submitted, ring.Length)
    }

    ghost predicate Framed()
      reads this
    {
      && submittedFrames <= |frames| && submitted <= |log|
      && Flatten(frames, nop) == log
      && Flatten(frames[..submittedFrames], nop) == log[..submitted]
    }

    /** FIFO: what was read is the beginning of what was submitted, packets in order and NOPs between them. */
    ghost predicate Fifo()
      reads this
      requires submittedFrames <= |frames|
    {
      |consumed| == read && consumed <= Flatten(frames[..submittedFrames], nop)
    }

    ghost predicate KeepsUnread(l: seq<int>)
      reads this, ring
    {
      ring.Length > 0 && HoldsAt(ring[..], l, read)
    }

    ghost predicate Valid()
      reads this, ring
    {
      Pointers() && Framed() && Fifo() && KeepsUnread(log)
    }

    constructor (size: nat, nopPacket: int, eightByte: bool)
      requires 0 < size < TWO32 && (eightByte ==> TWO32 % size == 0)
      ensures Valid() && fresh(ring) && ring.Length == size && nop == nopPacket && eightByteDoorbell == eightByte
      ensures log == [] && frames == []
    {
      nop := nopPacket;
      eightByteDoorbell := eightByte;
      ring := new int[size](_ => 0);
      rptr, pendingWptr, pendingWptr64, wptrMem := 0, 0, 0, 0;
      log, submitted, read, frames, submittedFrames, consumed := [], 0, 0, [], 0, [];
    }

    /**
      kq_acquire_packet_buffer: a place for `n` dwords, or none and no change. It succeeds
      exactly when the packet fits, pads with NOPs up to the end of the ring if it has to,
      and never touches an unread dword.
     */
    method AcquirePacketBuffer(n: nat) returns (at: Option<nat>)
      requires Valid()
      modifies this`pendingWptr, this`pendingWptr64, this`log, this`frames, ring
      ensures Valid()
      ensures at.Some? <==> Fits(rptr, old(pendingWptr), n, ring.Length)
      ensures at.None? ==>
        && log == old(log) && frames == old(frames) && pendingWptr == old(pendingWptr)
        && pendingWptr64 == old(pendingWptr64) && ring[..] == old(ring[..])
      ensures at.Some? ==>
        && at.value + n == pendingWptr < ring.Length
        && |frames| == |old(frames)| + 1 && frames[..|old(frames)|] == old(frames)
        && frames[|old(frames)|].packet == ring[at.value..at.value + n]
      ensures KeepsUnread(old(log))
    {
      hide At, Flatten, HoldsAt;
      var size := ring.Length;
      var wptr, wptr64 := pendingWptr, pendingWptr64;
      AcceptsIffFits(rptr, wptr, n, size);
      AtDistance(read, |log|, size);
      if n > (rptr + size - 1 - wptr) % size {
        return None;
      }
      ghost var r0 := ring[..];
      ghost var pad := 0;
      if wptr + n >= size {
        if n >= rptr {
          return None;
        }
        pad := size - wptr;
        wptr, wptr64 := PadToEnd(wptr, wptr64);
      }
      AppendFrame(r0, pad, wptr, wptr64, n);
      return Some(wptr);
    }

    /** The acquired dwords join the log behind their padding. */
    method AppendFrame(ghost r0: seq<int>, ghost pad: nat, wptr: nat, wptr64: nat, n: nat)
      requires Pointers() && Framed() && Fifo()
      requires Placed(r0, ring[..], log, read, nop, pad, wptr, n) && HoldsAt(r0, log, read)
      requires |log| + pad + n < read + ring.Length
      requires eightByteDoorbell ==> wptr64 == pendingWptr64 + pad
      modifies this`pendingWptr, this`pendingWptr64, this`log, this`frames
      ensures Valid() && KeepsUnread(old(log))
      ensures pendingWptr == wptr + n && frames == old(frames) + [Frame(pad, ring[..][wptr..wptr + n])]
    {
      hide At, Flatten, HoldsAt;
      HoldsExtend(r0, ring[..], log, read, nop, pad, wptr, n);
      FrameAdded(frames, submittedFrames, Frame(pad, ring[..][wptr..wptr + n]), log, submitted, nop);
      AtSum(|log|, pad + n, TWO64);
      pendingWptr := wptr + n;
      pendingWptr64 := At(wptr64 + n, TWO64);
      frames := frames + [Frame(pad, ring[..][wptr..wptr + n])];
      log := log + Nops(pad, nop) + ring[..][wptr..wptr + n];
    }

    /** Fill NOPs, roll over and start at position 0. */
    method PadToEnd(from: nat, from64: nat) returns (wptr: nat, wptr64: nat)
      requires 0 < from < ring.Length
      modifies ring
      ensures wptr == 0 && wptr64 == from64 + (ring.Length - from)
      ensures ring[..] == old(ring[..])[..from] + Nops(ring.Length - from, nop)
    {
      wptr, wptr64 := from, from64;
      ghost var end := from;
      while wptr > 0
        invariant from <= end <= ring.Length && wptr == if end < ring.Length then end else 0
        invariant wptr64 == from64 + (end - from)
        invariant forall k :: 0 <= k < ring.Length ==>
          ring[k] == if from <= k < end then nop else old(ring[..])[k]
        decreases ring.Length - end
      {
        ring[wptr] := nop;
        wptr := if wptr + 1 == ring.Length then 0 else wptr + 1;
        wptr64 := wptr64 + 1;
        end := end + 1;
      }
    }

    /** The caller writes its packet where it acquired room for it. */
    method FillPacket(packet: seq<int>)
      requires Valid() && |frames| > submittedFrames
      requires |frames[|frames| - 1].packet| == |packet| <= pendingWptr
      modifies this`log, this`frames, ring
      ensures Valid()
      ensures frames == Refill(old(frames), packet)
    {
      hide At, Flatten, HoldsAt;
      var n := |packet|;
      var at := pendingWptr - n;
      ghost var r0 := ring[..];
      LastFrame(frames, submittedFrames, nop);
      HoldsRewrite(r0, log, read, at, packet);
      FrameRewritten(frames, submittedFrames, packet, log, submitted, nop);
      CopyIn(at, packet);
      frames := Refill(frames, packet);
      log := log[..|log| - n] + packet;
    }

    method CopyIn(at: nat, packet: seq<int>)
      requires at + |packet| <= ring.Length
      modifies ring
      ensures ring[..] == old(ring[..])[..at] + packet + old(ring[..])[at + |packet|..]
    {
      for i := 0 to |packet|
        invariant forall k :: 0 <= k < ring.Length ==>
          ring[k] == if at <= k < at + i then packet[k - at] else old(ring[..])[k]
      {
        ring[at + i] := packet[i];
      }
    }

    method SubmitPacket()
      requires Valid()
      modifies this`wptrMem, this`submitted, this`submittedFrames
      ensures Valid() && submitted == |log| && submittedFrames == |frames|
    {
      wptrMem := if eightByteDoorbell then pendingWptr64 else pendingWptr;
      submitted := |log|;
      submittedFrames := |frames|;
      assert frames[..|frames|] == frames && log[..|log|] == log;
    }

    /** Drop everything acquired since the last submit; the pointers agree again. */
    method RollbackPacket()
      requires Valid()
      modifies this`pendingWptr, this`pendingWptr64, this`log, this`frames
      ensures Valid() && log == old(log)[..submitted] && frames == old(frames)[..submittedFrames]
    {
      RollbackCongruent(ring.Length);
      if eightByteDoorbell {
        pendingWptr64 := wptrMem;
        pendingWptr := (wptrMem % TWO32) % ring.Length;
      } else {
        pendingWptr := wptrMem;
      }
      log := log[..submitted];
      frames := frames[..submittedFrames];
      assert frames[..submittedFrames] == frames && log[..submitted] == log;
    }

    /**
      How the packet manager sends: acquire, build the packet in place, then submit, or
      roll back when building fails. Either exactly this packet joins those submitted, or
      nothing does.
     */
    method SendPacket(packet: seq<int>, built: bool) returns (ok: bool)
      requires Valid() && submittedFrames == |frames|
      modifies this`pendingWptr, this`pendingWptr64, this`wptrMem, this`log, this`frames, this`submitted,
               this`submittedFrames, ring
      ensures Valid() && submittedFrames == |frames|
      ensures ok <==> built && Fits(rptr, old(pendingWptr), |packet|, ring.Length)
      ensures Packets(frames) == if ok then old(Packets(frames)) + [packet] else old(Packets(frames))
    {
      hide Flatten, At, Fits;
      ghost var fs := frames;
      var at := AcquirePacketBuffer(|packet|);
      if at.None? { return false; }
      assert frames == fs + [frames[|fs|]];
      if !built {
        RollbackPacket();
        assert frames == fs;
        return false;
      }
      FillPacket(packet);
      SubmitPacket();
      FlattenSnoc(fs, frames[|fs|], nop);
      assert frames == fs + [frames[|fs|]];
      return true;
    }

    /** The consumer reads on, at most up to the submitted pointer, and gets the log. */
    method Consume(n: nat) returns (data: seq<int>)
      requires Valid() && read + n <= submitted
      modifies this`rptr, this`read, this`consumed
      ensures Valid() && read == old(read) + n && consumed == old(consumed) + data
      ensures read <= |Flatten(frames[..submittedFrames], nop)|
      ensures data == Flatten(frames[..submittedFrames], nop)[old(read)..read]
    {
      hide At, Flatten;
      data := [];
      for i := 0 to n
        invariant Pointers() && read == old(read) + i
        invariant KeepsUnread(log)
        invariant data == log[old(read)..read]
        invariant consumed == old(consumed) + data && consumed == log[..read]
      {
        data := data + [ring[rptr]];
        assert ring[..][rptr] == log[read];
        AtSum(read, 1, ring.Length);
        rptr := At(rptr + 1, ring.Length);
        consumed := consumed + [log[read]];
        read := read + 1;
      }
    }
  }
}
