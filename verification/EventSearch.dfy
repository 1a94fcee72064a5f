/**
  Finding the event an interrupt is about: the partial-id lookup, and the two exhaustive
  searches that stand in for it.
 */
module EventSearch {
  import EventWaits
  import opened Basics
  import opened Arithmetic

  predicate GpuSignaled(k: EventWaits.Kind) { k.Signal? || k.Debug? }

  // ----- partial ids

  /** The k-th id with the given partial id. */
  function Candidate(id: nat, stride: nat, k: nat): nat { id + k * stride }

  /** A signaled slot whose id has an event. */
  predicate Hit(slots: seq<bool>, idr: map<nat, EventWaits.Kind>, id: nat) {
    id < |slots| && slots[id] && id in idr
  }

  lemma StrideMono(id: nat, stride: nat, j: nat, k: nat)
    requires stride > 0
    ensures j <= k ==> Candidate(id, stride, j) <= Candidate(id, stride, k)
    ensures Candidate(id, stride, k + 1) == Candidate(id, stride, k) + stride
  {
    if j <= k {
      MulMono(j, k, stride);
    }
    assert (k + 1) * stride == k * stride + stride;
  }

  /** Two ids agree in their low bits. */
  predicate LowBitsAgree(a: nat, b: nat, bits: nat) {
    bits == 0 || (a % 2 == b % 2 && LowBitsAgree(a / 2, b / 2, bits - 1))
  }

  lemma Doubled(k: nat, s: nat)
    ensures k * (2 * s) == 2 * (k * s)
  {
  }

  /** The candidates are exactly the ids from the given one on that agree with it in the valid bits. */
  lemma {:induction false} CandidateAgrees(id: nat, bits: nat, k: nat)
    ensures LowBitsAgree(id, Candidate(id, Pow2(bits), k), bits)
  {
    if bits > 0 {
      CandidateAgrees(id / 2, bits - 1, k);
      Doubled(k, Pow2(bits - 1));
    }
  }

  lemma {:induction false} AgreeingIsCandidate(id: nat, x: nat, bits: nat) returns (k: nat)
    requires id <= x && LowBitsAgree(id, x, bits)
    ensures x == Candidate(id, Pow2(bits), k)
  {
    if bits == 0 {
      k := x - id;
    } else {
      k := AgreeingIsCandidate(id / 2, x / 2, bits - 1);
      Doubled(k, Pow2(bits - 1));
    }
  }

  /** No id from one on that agrees with it is hit, below a bound. */
  ghost predicate NoHit(slots: seq<bool>, idr: map<nat, EventWaits.Kind>, id: nat, bits: nat, bound: nat) {
    forall x :: id <= x < bound && LowBitsAgree(id, x, bits) ==> !Hit(slots, idr, x)
  }

  lemma NoHitBefore(slots: seq<bool>, idr: map<nat, EventWaits.Kind>, id: nat, bits: nat, k: nat)
    requires forall j: nat :: j < k ==> !Hit(slots, idr, Candidate(id, Pow2(bits), j))
    ensures NoHit(slots, idr, id, bits, Candidate(id, Pow2(bits), k))
  {
    forall x | id <= x < Candidate(id, Pow2(bits), k) && LowBitsAgree(id, x, bits) ensures !Hit(slots, idr, x) {
      var j := AgreeingIsCandidate(id, x, bits);
      if j >= k {
        StrideMono(id, Pow2(bits), k, j);
      }
    }
  }

  /**
    lookup_signaled_event_by_partial_id. The result is the first signaled event among the
    ids from the given one on that agree with it in the valid bits, and there is none only
    if no such id is hit. With enough valid bits the id itself is the only candidate.
   */
  method LookupByPartialId(slots: array<bool>, idr: map<nat, EventWaits.Kind>, id: nat, bits: nat) returns (r: Option<nat>)
    ensures r.Some? ==>
      && Hit(slots[..], idr, r.value) && id <= r.value && LowBitsAgree(id, r.value, bits)
      && NoHit(slots[..], idr, id, bits, r.value)
      && (bits > 31 || Pow2(bits) >= slots.Length ==> r.value == id)
    ensures r.None? ==> !Hit(slots[..], idr, id) && (bits <= 31 ==> NoHit(slots[..], idr, id, bits, slots.Length))
  {
    hide LowBitsAgree, NoHit;
    var limit, stride := slots.Length, Pow2(bits);
    assert Candidate(id, stride, 0) == id;
    NoHitBefore(slots[..], idr, id, bits, 0);
    CandidateAgrees(id, bits, 0);
    if id >= limit {
      NoHitBeyond(slots[..], idr, id, bits, 0, limit);
      return None;
    }
    if bits > 31 || stride >= limit {
      StrideMono(id, stride, 0, 0);
      if slots[id] && id in idr { return Some(id); }
      if stride >= limit {
        NoHitBefore(slots[..], idr, id, bits, 1);
        NoHitBeyond(slots[..], idr, id, bits, 1, limit);
      }
      return None;
    }
    var cur := id;
    ghost var k: nat := 0;
    while cur < limit
      invariant cur == Candidate(id, stride, k)
      invariant forall j: nat :: j < k ==> !Hit(slots[..], idr, Candidate(id, stride, j))
      decreases limit - cur
    {
      NoHitBefore(slots[..], idr, id, bits, k);
      CandidateAgrees(id, bits, k);
      if slots[cur] && cur in idr {
        return Some(cur);
      }
      StrideMono(id, stride, 0, k);
      cur := cur + stride;
      k := k + 1;
    }
    NoHitBefore(slots[..], idr, id, bits, k);
    NoHitBeyond(slots[..], idr, id, bits, k, limit);
    return None;
  }

  lemma NoHitBeyond(slots: seq<bool>, idr: map<nat, EventWaits.Kind>, id: nat, bits: nat, k: nat, limit: nat)
    requires Candidate(id, Pow2(bits), k) >= limit && NoHit(slots, idr, id, bits, Candidate(id, Pow2(bits), k))
    ensures NoHit(slots, idr, id, bits, limit)
  {
  }

  // ----- exhaustive searches

  /** A signaled slot whose event the GPU may signal. */
  predicate Due(slots: seq<bool>, idr: map<nat, EventWaits.Kind>, id: nat) {
    Hit(slots, idr, id) && GpuSignaled(idr[id])
  }

  /** The ids from `from` up to `n` that are due, in order. */
  function DueIds(slots: seq<bool>, idr: map<nat, EventWaits.Kind>, from: nat, n: nat): seq<nat> {
    if n <= from then [] else
      DueIds(slots, idr, from, n - 1) + if Due(slots, idr, n - 1) then [n - 1] else []
  }

  /** The slots once every due id in that range is acknowledged. */
  function Acknowledged(slots: seq<bool>, idr: map<nat, EventWaits.Kind>, from: nat, n: nat): seq<bool> {
    seq(|slots|, i requires 0 <= i < |slots| =>
      slots[i] && !(from <= i < n && Due(slots, idr, i)))
  }

  /**
    What a scan does: it meets in ascending order exactly the ids that have a signaled slot
    and a signal or debug event, and leaves exactly the other slots as they were.
   */
  lemma {:induction false} DueMeans(slots: seq<bool>, idr: map<nat, EventWaits.Kind>, from: nat, n: nat)
    ensures forall id :: id in DueIds(slots, idr, from, n) <==>
      from <= id < n && id < |slots| && slots[id] && id in idr && (idr[id] == EventWaits.Signal || idr[id] == EventWaits.Debug)
    ensures forall i, j :: 0 <= i < j < |DueIds(slots, idr, from, n)| ==> DueIds(slots, idr, from, n)[i] < DueIds(slots, idr, from, n)[j]
    ensures forall id :: 0 <= id < |slots| ==>
      Acknowledged(slots, idr, from, n)[id] == (slots[id] && id !in DueIds(slots, idr, from, n))
  {
    if n > from {
      DueMeans(slots, idr, from, n - 1);
      var front := DueIds(slots, idr, from, n - 1);
      assert forall i :: 0 <= i < |front| ==> front[i] in front;
    }
  }

  lemma {:induction false} DueFrom(slots: seq<bool>, idr: map<nat, EventWaits.Kind>, n: nat)
    ensures DueIds(slots, idr, 0, n) == (if n > 0 && Due(slots, idr, 0) then [0] else []) + DueIds(slots, idr, 1, n)
  {
    if n > 1 {
      DueFrom(slots, idr, n - 1);
    } else if n == 1 {
      assert DueIds(slots, idr, 0, 0) == [];
    }
  }

  /**
    The two searches acknowledge the same slots and set the same events in the same order,
    exactly when id 0 is not a signaled event. Keeping id 0 reserved with no event is what
    makes the choice between them invisible.
   */
  lemma SearchesAgree(slots: seq<bool>, idr: map<nat, EventWaits.Kind>)
    ensures DueIds(slots, idr, 0, |slots|) == DueIds(slots, idr, 1, |slots|)
        && Acknowledged(slots, idr, 0, |slots|) == Acknowledged(slots, idr, 1, |slots|)
        <==> !Due(slots, idr, 0)
  {
    DueFrom(slots, idr, |slots|);
    if Due(slots, idr, 0) {
      assert |DueIds(slots, idr, 0, |slots|)| == 1 + |DueIds(slots, idr, 1, |slots|)|;
    } else {
      assert DueIds(slots, idr, 0, |slots|) == DueIds(slots, idr, 1, |slots|);
    }
  }

  /** idr_get_next below a bound. */
  function NextId(idr: map<nat, EventWaits.Kind>, from: nat, limit: nat): (r: nat)
    requires from <= limit
    ensures from <= r <= limit && (r < limit ==> r in idr)
    ensures forall k :: from <= k < r ==> k !in idr
    decreases limit - from
  {
    if from == limit || from in idr then from else NextId(idr, from + 1, limit)
  }

  lemma {:induction false} DueSkip(slots: seq<bool>, idr: map<nat, EventWaits.Kind>, from: nat, a: nat, b: nat)
    requires from <= a <= b && forall k :: a <= k < b ==> !Due(slots, idr, k)
    ensures DueIds(slots, idr, from, b) == DueIds(slots, idr, from, a)
    ensures Acknowledged(slots, idr, from, b) == Acknowledged(slots, idr, from, a)
  {
    if a < b {
      DueSkip(slots, idr, from, a, b - 1);
    }
  }

  class SignalPage {
    const slots: array<bool>
    var idr: map<nat, EventWaits.Kind>
    /** The events set so far. */
    var fired: seq<nat>

    constructor (limit: nat)
      ensures fresh(slots) && slots.Length == limit && idr == map[] && fired == []
    {
      slots := new bool[limit](_ => false);
      idr, fired := map[], [];
    }

    /** set_event_from_interrupt for a signaled slot. */
    method SetFromInterrupt(id: nat)
      requires id < slots.Length && slots[id]
      modifies slots, this`fired
      ensures var due := id in idr && GpuSignaled(idr[id]);
        && fired == old(fired) + (if due then [id] else [])
        && slots[..] == old(slots[..])[id := !due]
    {
      if id in idr && GpuSignaled(idr[id]) {
        slots[id] := false;
        fired := fired + [id];
      }
    }

    /** Handle one id if its slot is signaled. */
    method Check(id: nat, ghost s0: seq<bool>, ghost f0: seq<nat>, ghost from: nat)
      requires from <= id < slots.Length && |s0| == slots.Length
      requires slots[..] == Acknowledged(s0, idr, from, id) && fired == f0 + DueIds(s0, idr, from, id)
      modifies slots, this`fired
      ensures slots[..] == Acknowledged(s0, idr, from, id + 1) && fired == f0 + DueIds(s0, idr, from, id + 1)
    {
      assert slots[..][id] == s0[id];
      if slots[id] {
        SetFromInterrupt(id);
      }
    }

    method ScanSlots()
      modifies slots, this`fired
      ensures slots[..] == Acknowledged(old(slots[..]), idr, 1, slots.Length)
      ensures fired == old(fired) + DueIds(old(slots[..]), idr, 1, slots.Length)
    {
      ghost var s0, f0 := slots[..], fired;
      assert slots[..] == Acknowledged(s0, idr, 1, 1);
      if slots.Length == 0 {
        assert slots[..] == Acknowledged(s0, idr, 1, 0);
        return;
      }
      for id := 1 to slots.Length
        invariant slots[..] == Acknowledged(s0, idr, 1, id) && fired == f0 + DueIds(s0, idr, 1, id)
      {
        Check(id, s0, f0, 1);
      }
    }

    method ScanIdr()
      modifies slots, this`fired
      ensures slots[..] == Acknowledged(old(slots[..]), idr, 0, slots.Length)
      ensures fired == old(fired) + DueIds(old(slots[..]), idr, 0, slots.Length)
    {
      ghost var s0, f0 := slots[..], fired;
      assert slots[..] == Acknowledged(s0, idr, 0, 0);
      var id := NextId(idr, 0, slots.Length);
      DueSkip(s0, idr, 0, 0, id);
      while id < slots.Length
        invariant 0 <= id <= slots.Length
        invariant slots[..] == Acknowledged(s0, idr, 0, id) && fired == f0 + DueIds(s0, idr, 0, id)
        decreases slots.Length - id
      {
        Check(id, s0, f0, 0);
        var next := NextId(idr, id + 1, slots.Length);
        DueSkip(s0, idr, 0, id + 1, next);
        id := next;
      }
    }

    /** The exhaustive search: whichever way it goes, the same happens. */
    method SearchAll(eventCount: nat)
      requires 0 !in idr
      modifies slots, this`fired
      ensures slots[..] == Acknowledged(old(slots[..]), idr, 0, slots.Length)
      ensures fired == old(fired) + DueIds(old(slots[..]), idr, 0, slots.Length)
    {
      SearchesAgree(slots[..], idr);
      if eventCount < slots.Length / 64 {
        ScanIdr();
      } else {
        ScanSlots();
      }
    }
  }
}
