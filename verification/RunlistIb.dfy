/**
  The runlist indirect buffer: how the packet manager sizes it from the
  scheduler's counters and fills it by walking the process and queue lists.
 */
module RunlistIb {
  import opened Arithmetic
  import opened Basics
  import opened Queues

  /** PM4 packet sizes in bytes, and the limits that decide over-subscription. */
  datatype Layout = Layout(
    mapProcessSize: nat,
    mapQueuesSize: nat,
    runlistSize: nat,
    maxProcPerQuantum: nat,
    cpQueues: nat)
  {
    /** Packets are packed structs of 32-bit words. */
    ghost predicate Valid() {
      && mapProcessSize > 0 && mapProcessSize % 4 == 0
      && mapQueuesSize > 0 && mapQueuesSize % 4 == 0
      && runlistSize > 0 && runlistSize % 4 == 0
    }
  }

  datatype Packet =
    | MapProcess(pid: nat)
    | MapQueue(pid: nat, qid: nat, isStatic: bool)
    | Chain(ibWords: nat)

  /** One dword of the buffer: zeroed, or the k-th dword of a packet. */
  datatype Word = Blank | Part(packet: Packet, k: nat)

  /** The scheduler's three activity counters. */
  datatype Tally = Tally(active: int, cp: int, gws: int)

  // ----- sizing (pm_calc_rlib_size)

  predicate OverSubscribed(processes: int, t: Tally, lay: Layout) {
    var perQuantum := if lay.maxProcPerQuantum > 1 then lay.maxProcPerQuantum else 1;
    processes > perQuantum || t.cp > lay.cpQueues || t.gws > 1
  }

  function RlibSize(processes: int, t: Tally, lay: Layout): int {
    processes * lay.mapProcessSize + t.active * lay.mapQueuesSize
      + if OverSubscribed(processes, t, lay) then lay.runlistSize else 0
  }

  // ----- the packets a correct runlist holds

  function QueuePackets(pid: nat, isStatic: bool, qs: seq<Queue>): seq<Packet> {
    if qs == [] then [] else
      var q := qs[|qs| - 1];
      QueuePackets(pid, isStatic, qs[..|qs| - 1])
        + if q.active then [MapQueue(pid, q.id, isStatic)] else []
  }

  function ProcPackets(pid: nat, p: Proc): seq<Packet> {
    [MapProcess(pid)] + QueuePackets(pid, p.isDebug, p.kernelQueues)
      + QueuePackets(pid, p.isDebug, p.queues)
  }

  function ListPackets(nodes: seq<nat>, procs: map<nat, Proc>): seq<Packet>
    requires forall p <- nodes :: p in procs
  {
    if nodes == [] then [] else
      ListPackets(nodes[..|nodes| - 1], procs)
        + ProcPackets(nodes[|nodes| - 1], procs[nodes[|nodes| - 1]])
  }

  function RunlistPackets(nodes: seq<nat>, procs: map<nat, Proc>, processes: int, t: Tally, lay: Layout): seq<Packet>
    requires forall p <- nodes :: p in procs
  {
    var total := RlibSize(processes, t, lay) / 4;
    ListPackets(nodes, procs)
      + if OverSubscribed(processes, t, lay) then [Chain(if total >= 0 then total else 0)] else []
  }

  // ----- their encoding as dwords

  function PacketSize(p: Packet, lay: Layout): nat {
    match p
    case MapProcess(_) => lay.mapProcessSize
    case MapQueue(_, _, _) => lay.mapQueuesSize
    case Chain(_) => lay.runlistSize
  }

  function PacketWords(p: Packet, lay: Layout): seq<Word> {
    seq(PacketSize(p, lay) / 4, k requires k >= 0 => Part(p, k))
  }

  function Encode(ps: seq<Packet>, lay: Layout): seq<Word> {
    if ps == [] then [] else Encode(ps[..|ps| - 1], lay) + PacketWords(ps[|ps| - 1], lay)
  }

  lemma {:induction false} EncodeConcat(a: seq<Packet>, b: seq<Packet>, lay: Layout)
    ensures Encode(a + b, lay) == Encode(a, lay) + Encode(b, lay)
  {
    hide Encode, PacketWords;
    if b == [] {
      EncodeNone(lay);
      assert a + b == a;
    } else {
      var c, x := b[..|b| - 1], b[|b| - 1];
      EncodeConcat(a, c, lay);
      EncodeSnoc(c, x, lay);
      EncodeSnoc(a + c, x, lay);
      assert c + [x] == b && (a + c) + [x] == a + b;
    }
  }

  lemma EncodeNone(lay: Layout)
    ensures Encode([], lay) == []
  {
  }

  lemma EncodeSnoc(ps: seq<Packet>, p: Packet, lay: Layout)
    ensures Encode(ps + [p], lay) == Encode(ps, lay) + PacketWords(p, lay)
  {
    assert (ps + [p])[..|ps + [p]| - 1] == ps;
  }

  lemma EncodeOne(p: Packet, lay: Layout)
    ensures Encode([p], lay) == PacketWords(p, lay)
  {
    EncodeSnoc([], p, lay);
    assert [] + [p] == [p];
  }

  // ----- the counters predict the encoded length exactly

  lemma {:induction false} QueueBytes(pid: nat, isStatic: bool, qs: seq<Queue>, lay: Layout)
    requires lay.Valid()
    ensures |Encode(QueuePackets(pid, isStatic, qs), lay)| == SumQ(Active, qs) * (lay.mapQueuesSize / 4)
  {
    if qs != [] {
      var n := |qs| - 1;
      QueueBytes(pid, isStatic, qs[..n], lay);
      var front := QueuePackets(pid, isStatic, qs[..n]);
      if qs[n].active {
        EncodeSnoc(front, MapQueue(pid, qs[n].id, isStatic), lay);
        MulStep(SumQ(Active, qs[..n]), lay.mapQueuesSize / 4);
      } else {
        assert QueuePackets(pid, isStatic, qs) == front;
      }
    }
  }

  lemma ProcBytes(pid: nat, p: Proc, lay: Layout)
    requires lay.Valid()
    ensures |Encode(ProcPackets(pid, p), lay)|
         == lay.mapProcessSize / 4 + SumP(Active, p) * (lay.mapQueuesSize / 4)
  {
    hide Encode, QueuePackets, SumQ;
    var mq := lay.mapQueuesSize / 4;
    var a := QueuePackets(pid, p.isDebug, p.kernelQueues);
    var b := QueuePackets(pid, p.isDebug, p.queues);
    QueueBytes(pid, p.isDebug, p.kernelQueues, lay);
    QueueBytes(pid, p.isDebug, p.queues, lay);
    EncodeConcat([MapProcess(pid)] + a, b, lay);
    EncodeConcat([MapProcess(pid)], a, lay);
    EncodeOne(MapProcess(pid), lay);
    Distribute(SumQ(Active, p.queues), SumQ(Active, p.kernelQueues), mq);
  }

  lemma SumSnoc(m: Metric, nodes: seq<nat>, procs: map<nat, Proc>)
    requires forall p <- nodes :: p in procs
    requires nodes != []
    ensures Sum(m, nodes, procs)
         == Sum(m, nodes[..|nodes| - 1], procs) + SumP(m, procs[nodes[|nodes| - 1]])
  {
    SumUnlink(m, nodes, procs, |nodes| - 1);
    assert RemoveAt(nodes, |nodes| - 1) == nodes[..|nodes| - 1];
  }

  lemma {:induction false} ListBytes(nodes: seq<nat>, procs: map<nat, Proc>, lay: Layout, a: nat, b: nat)
    requires lay.Valid() && a == lay.mapProcessSize / 4 && b == lay.mapQueuesSize / 4
    requires forall p <- nodes :: p in procs
    ensures |Encode(ListPackets(nodes, procs), lay)| == |nodes| * a + Sum(Active, nodes, procs) * b
  {
    hide Encode, ListPackets, Sum, SumP;
    if nodes == [] {
      ListOfNone(procs, lay);
    } else {
      var n := |nodes| - 1;
      ListBytes(nodes[..n], procs, lay, a, b);
      ListStep(nodes, procs, lay, a, b);
      Combine(n, Sum(Active, nodes[..n], procs), SumP(Active, procs[nodes[n]]), a, b);
    }
  }

  lemma ListOfNone(procs: map<nat, Proc>, lay: Layout)
    ensures Encode(ListPackets([], procs), lay) == [] && Sum(Active, [], procs) == 0
  {
  }

  lemma Combine(n: int, s: int, p: int, a: int, b: int)
    ensures (n * a + s * b) + a + p * b == (n + 1) * a + (s + p) * b
  {
    MulStep(n, a);
    Distribute(s, p, b);
  }

  /** The last process adds its own packets. */
  lemma ListStep(nodes: seq<nat>, procs: map<nat, Proc>, lay: Layout, a: nat, b: nat)
    requires lay.Valid() && a == lay.mapProcessSize / 4 && b == lay.mapQueuesSize / 4
    requires nodes != [] && forall p <- nodes :: p in procs
    ensures var n := |nodes| - 1;
      && Sum(Active, nodes, procs) == Sum(Active, nodes[..n], procs) + SumP(Active, procs[nodes[n]])
      && |Encode(ListPackets(nodes, procs), lay)|
         == |Encode(ListPackets(nodes[..n], procs), lay)| + a + SumP(Active, procs[nodes[n]]) * b
  {
    hide Encode, ProcPackets, SumP;
    var n := |nodes| - 1;
    ProcBytes(nodes[n], procs[nodes[n]], lay);
    EncodeConcat(ListPackets(nodes[..n], procs), ProcPackets(nodes[n], procs[nodes[n]]), lay);
    SumSnoc(Active, nodes, procs);
  }

  lemma RunlistWords(nodes: seq<nat>, procs: map<nat, Proc>, processes: int, t: Tally, lay: Layout)
    requires forall p <- nodes :: p in procs
    ensures |Encode(RunlistPackets(nodes, procs, processes, t, lay), lay)|
         == |Encode(ListPackets(nodes, procs), lay)|
          + if OverSubscribed(processes, t, lay) then lay.runlistSize / 4 else 0
  {
    var ps := ListPackets(nodes, procs);
    if OverSubscribed(processes, t, lay) {
      var total := RlibSize(processes, t, lay) / 4;
      EncodeSnoc(ps, Chain(if total >= 0 then total else 0), lay);
    } else {
      assert ps + [] == ps;
    }
  }

  /**
    How far the computed size misses: by one map-queues packet for every active queue the
    list walk meets beyond those the counter knows of.
   */
  lemma SizeGap(nodes: seq<nat>, procs: map<nat, Proc>, t: Tally, lay: Layout)
    requires lay.Valid()
    requires forall p <- nodes :: p in procs
    ensures 4 * |Encode(RunlistPackets(nodes, procs, |nodes|, t, lay), lay)|
         == RlibSize(|nodes|, t, lay) + (Sum(Active, nodes, procs) - t.active) * lay.mapQueuesSize
  {
    hide Encode, Sum, RunlistPackets;
    var a, b := lay.mapProcessSize / 4, lay.mapQueuesSize / 4;
    RunlistWords(nodes, procs, |nodes|, t, lay);
    ListBytes(nodes, procs, lay, a, b);
    GapArithmetic(|nodes|, Sum(Active, nodes, procs), t.active, a, b);
  }

  lemma GapArithmetic(processes: int, listed: int, counted: int, a: int, b: int)
    ensures 4 * (processes * a + listed * b)
         == processes * (4 * a) + counted * (4 * b) + (listed - counted) * (4 * b)
  {
    Distribute(counted, listed - counted, 4 * b);
    MulFour(processes, a);
    MulFour(listed, b);
  }

  lemma MulFour(a: int, b: int)
    ensures a * (4 * b) == 4 * (a * b)
  {
  }

  /**
    The size computed from the counters is exactly what the packets need if and only if
    the active count is the number of active queues the list walk meets. This is what
    keeps the overflow warning of the builder from being reached.
   */
  lemma SizeIsExact(nodes: seq<nat>, procs: map<nat, Proc>, t: Tally, lay: Layout)
    requires lay.Valid()
    requires forall p <- nodes :: p in procs
    ensures 4 * |Encode(RunlistPackets(nodes, procs, |nodes|, t, lay), lay)| == RlibSize(|nodes|, t, lay)
        <==> t.active == Sum(Active, nodes, procs)
  {
    hide Encode, Sum, RlibSize;
    SizeGap(nodes, procs, t, lay);
    MulBounds(Sum(Active, nodes, procs) - t.active, lay.mapQueuesSize);
  }

  /** A count that is not too low gives a whole number of dwords, enough for the packets. */
  lemma SizeSuffices(nodes: seq<nat>, procs: map<nat, Proc>, t: Tally, lay: Layout)
    requires lay.Valid()
    requires (forall p <- nodes :: p in procs) && Sum(Active, nodes, procs) <= t.active
    ensures RlibSize(|nodes|, t, lay) % 4 == 0
    ensures 4 * |Encode(RunlistPackets(nodes, procs, |nodes|, t, lay), lay)| <= RlibSize(|nodes|, t, lay)
  {
    hide Encode, Sum, RunlistPackets, RlibSize;
    SizeGap(nodes, procs, t, lay);
    SufficesArithmetic(|Encode(RunlistPackets(nodes, procs, |nodes|, t, lay), lay)|, RlibSize(|nodes|, t, lay),
                       Sum(Active, nodes, procs) - t.active, lay.mapQueuesSize);
  }

  lemma SufficesArithmetic(words: int, size: int, d: int, m: int)
    requires m > 0 && m % 4 == 0 && d <= 0 && 4 * words == size + d * m
    ensures size % 4 == 0 && 4 * words <= size
  {
    MulBounds(d, m);
    var b := m / 4;
    MulFour(d, b);
    assert size == 4 * (words - d * b);
  }

  // ----- filling the buffer (pm_create_runlist_ib)

  /** inc_wptr: advance the dword index; `warned` is the overflow warning. */
  method IncWptr(wptr: nat, incrementBytes: nat, bufferBytes: int) returns (next: nat, warned: bool)
    ensures next == wptr + incrementBytes / 4
    ensures warned <==> next * 4 > bufferBytes
  {
    next := wptr + incrementBytes / 4;
    warned := next * 4 > bufferBytes;
  }

  /** One pmf callback: write a whole packet at dword index `at`. */
  method WritePacket(buf: array<Word>, at: nat, p: Packet, lay: Layout)
    requires at + PacketSize(p, lay) / 4 <= buf.Length
    modifies buf
    ensures buf[at..at + PacketSize(p, lay) / 4] == PacketWords(p, lay)
    ensures buf[..at] == old(buf[..at])
    ensures forall j :: at + PacketSize(p, lay) / 4 <= j < buf.Length ==> buf[j] == old(buf[j])
  {
    var n := PacketSize(p, lay) / 4;
    for k := 0 to n
      invariant forall j :: 0 <= j < k ==> buf[at + j] == Part(p, j)
      invariant buf[..at] == old(buf[..at])
      invariant forall j :: at + k <= j < buf.Length ==> buf[j] == old(buf[j])
    {
      buf[at + k] := Part(p, k);
    }
  }

  lemma EncodePrefixFits(a: seq<Packet>, b: seq<Packet>, whole: seq<Packet>, lay: Layout)
    requires whole == a + b
    ensures |Encode(a, lay)| <= |Encode(whole, lay)|
  {
    EncodeConcat(a, b, lay);
  }

  /** The words begin with the packets and are blank behind them. */
  ghost predicate HoldsPackets(words: seq<Word>, ps: seq<Packet>, lay: Layout) {
    Encode(ps, lay) <= words && forall k :: |Encode(ps, lay)| <= k < |words| ==> words[k] == Blank
  }

  /** Append one packet to what is already encoded in the buffer. */
  method Emit(buf: array<Word>, wptr: nat, p: Packet, lay: Layout, ghost done: seq<Packet>, ghost whole: seq<Packet>)
    returns (next: nat, warned: bool)
    requires done + [p] <= whole && |Encode(whole, lay)| <= buf.Length
    requires wptr == |Encode(done, lay)| && HoldsPackets(buf[..], done, lay)
    modifies buf
    ensures !warned
    ensures next == |Encode(done + [p], lay)| && HoldsPackets(buf[..], done + [p], lay)
  {
    assert buf[..wptr] == Encode(done, lay);
    EncodePrefixFits(done + [p], whole[|done| + 1..], whole, lay);
    EncodeSnoc(done, p, lay);
    WritePacket(buf, wptr, p, lay);
    next, warned := IncWptr(wptr, PacketSize(p, lay), 4 * buf.Length);
    assert buf[..next] == buf[..wptr] + buf[wptr..next];
  }

  /** The inner loop over one queue list: a map-queues packet per active queue. */
  method EmitQueues(buf: array<Word>, start: nat, pid: nat, isStatic: bool, qs: seq<Queue>, lay: Layout,
                    ghost done: seq<Packet>, ghost whole: seq<Packet>)
    returns (wptr: nat, warned: bool)
    requires done + QueuePackets(pid, isStatic, qs) <= whole && |Encode(whole, lay)| <= buf.Length
    requires start == |Encode(done, lay)| && HoldsPackets(buf[..], done, lay)
    modifies buf
    ensures !warned
    ensures wptr == |Encode(done + QueuePackets(pid, isStatic, qs), lay)|
    ensures HoldsPackets(buf[..], done + QueuePackets(pid, isStatic, qs), lay)
  {
    hide Encode, HoldsPackets;
    wptr, warned := start, false;
    assert done + QueuePackets(pid, isStatic, []) == done;
    for i := 0 to |qs|
      invariant !warned
      invariant done + QueuePackets(pid, isStatic, qs[..i]) <= whole
      invariant wptr == |Encode(done + QueuePackets(pid, isStatic, qs[..i]), lay)|
      invariant HoldsPackets(buf[..], done + QueuePackets(pid, isStatic, qs[..i]), lay)
    {
      ghost var so := done + QueuePackets(pid, isStatic, qs[..i]);
      QueuePacketsPrefix(pid, isStatic, qs, i);
      if qs[i].active {
        var w;
        assert done + QueuePackets(pid, isStatic, qs[..i + 1]) == so + [MapQueue(pid, qs[i].id, isStatic)];
        wptr, w := Emit(buf, wptr, MapQueue(pid, qs[i].id, isStatic), lay, so, whole);
        warned := warned || w;
      } else {
        assert done + QueuePackets(pid, isStatic, qs[..i + 1]) == so;
      }
    }
    assert qs[..|qs|] == qs;
  }

  lemma {:induction false} QueuePacketsPrefix(pid: nat, isStatic: bool, qs: seq<Queue>, i: nat)
    requires i < |qs|
    ensures QueuePackets(pid, isStatic, qs[..i + 1])
         == QueuePackets(pid, isStatic, qs[..i])
          + if qs[i].active then [MapQueue(pid, qs[i].id, isStatic)] else []
    ensures QueuePackets(pid, isStatic, qs[..i + 1]) <= QueuePackets(pid, isStatic, qs)
    decreases |qs|
  {
    assert qs[..i + 1][..i] == qs[..i];
    if i + 1 < |qs| {
      var r := qs[..|qs| - 1];
      QueuePacketsPrefix(pid, isStatic, r, i);
      assert r[..i + 1] == qs[..i + 1];
    } else {
      assert qs[..i + 1] == qs;
    }
  }

  lemma {:induction false} ListPacketsPrefix(nodes: seq<nat>, procs: map<nat, Proc>, i: nat)
    requires i < |nodes|
    requires forall p <- nodes :: p in procs
    ensures ListPackets(nodes[..i + 1], procs)
         == ListPackets(nodes[..i], procs) + ProcPackets(nodes[i], procs[nodes[i]])
    ensures ListPackets(nodes[..i + 1], procs) <= ListPackets(nodes, procs)
    decreases |nodes|
  {
    assert nodes[..i + 1][..i] == nodes[..i];
    if i + 1 < |nodes| {
      var r := nodes[..|nodes| - 1];
      ListPacketsPrefix(r, procs, i);
      assert r[..i + 1] == nodes[..i + 1];
    } else {
      assert nodes[..i + 1] == nodes;
    }
  }

  /** Every packet of one process: map-process, then its kernel and its user queues. */
  method EmitProcess(buf: array<Word>, start: nat, pid: nat, p: Proc, lay: Layout,
                     ghost done: seq<Packet>, ghost whole: seq<Packet>)
    returns (wptr: nat, warned: bool)
    requires done + ProcPackets(pid, p) <= whole && |Encode(whole, lay)| <= buf.Length
    requires start == |Encode(done, lay)| && HoldsPackets(buf[..], done, lay)
    modifies buf
    ensures !warned
    ensures wptr == |Encode(done + ProcPackets(pid, p), lay)| && HoldsPackets(buf[..], done + ProcPackets(pid, p), lay)
  {
    hide Encode, HoldsPackets;
    ghost var a := done + [MapProcess(pid)];
    ghost var b := a + QueuePackets(pid, p.isDebug, p.kernelQueues);
    ghost var c := b + QueuePackets(pid, p.isDebug, p.queues);
    assert c == done + ProcPackets(pid, p);
    assert a <= b <= c <= whole;
    var w1, w2, w3;
    wptr, w1 := Emit(buf, start, MapProcess(pid), lay, done, whole);
    wptr, w2 := EmitQueues(buf, wptr, pid, p.isDebug, p.kernelQueues, lay, a, whole);
    wptr, w3 := EmitQueues(buf, wptr, pid, p.isDebug, p.queues, lay, b, whole);
    warned := w1 || w2 || w3;
  }

  datatype FillResult = Filled(wptr: nat) | NotEnoughSpace

  /** The outer loop over the process list. */
  method EmitProcesses(buf: array<Word>, nodes: seq<nat>, procs: map<nat, Proc>, processes: int, lay: Layout,
                       ghost whole: seq<Packet>)
    returns (r: FillResult, warned: bool)
    requires forall p <- nodes :: p in procs
    requires processes == |nodes|
    requires ListPackets(nodes, procs) <= whole && |Encode(whole, lay)| <= buf.Length
    requires HoldsPackets(buf[..], [], lay)
    modifies buf
    ensures r == Filled(|Encode(ListPackets(nodes, procs), lay)|) && !warned
    ensures HoldsPackets(buf[..], ListPackets(nodes, procs), lay)
  {
    hide HoldsPackets;
    var wptr, mapped := 0, 0;
    warned := false;
    for i := 0 to |nodes|
      invariant mapped == i && !warned
      invariant wptr == |Encode(ListPackets(nodes[..i], procs), lay)|
      invariant HoldsPackets(buf[..], ListPackets(nodes[..i], procs), lay)
    {
      if mapped >= processes {
        return NotEnoughSpace, warned;
      }
      ListPacketsPrefix(nodes, procs, i);
      var w;
      wptr, w := EmitProcess(buf, wptr, nodes[i], procs[nodes[i]], lay, ListPackets(nodes[..i], procs), whole);
      warned := warned || w;
      mapped := mapped + 1;
    }
    assert nodes[..|nodes|] == nodes;
    r := Filled(wptr);
  }

  /**
    The builder. Unless the list walk meets more active queues than were counted, the
    cleared buffer ends up holding exactly the runlist's packets, and neither the overflow
    warning nor the not-enough-space branch is reached. No dword is left blank exactly if
    the count is right.
   */
  method FillRunlistIb(buf: array<Word>, nodes: seq<nat>, procs: map<nat, Proc>, processes: int, t: Tally, lay: Layout)
    returns (r: FillResult, warned: bool)
    requires lay.Valid()
    requires forall p <- nodes :: p in procs
    requires processes == |nodes| && Sum(Active, nodes, procs) <= t.active
    requires 4 * buf.Length == RlibSize(processes, t, lay) && forall k :: 0 <= k < buf.Length ==> buf[k] == Blank
    modifies buf
    ensures r == Filled(|Encode(RunlistPackets(nodes, procs, processes, t, lay), lay)|) && !warned
    ensures HoldsPackets(buf[..], RunlistPackets(nodes, procs, processes, t, lay), lay)
    ensures r.wptr == buf.Length <==> t.active == Sum(Active, nodes, procs)
  {
    hide Encode, Sum, ListPackets, HoldsPackets;
    ghost var whole := RunlistPackets(nodes, procs, processes, t, lay);
    ghost var list := ListPackets(nodes, procs);
    SizeSuffices(nodes, procs, t, lay);
    NothingHeld(buf[..], lay);
    r, warned := EmitProcesses(buf, nodes, procs, processes, lay, whole);
    if r.Filled? {
      if OverSubscribed(processes, t, lay) {
        var c := Chain(buf.Length);
        assert list + [c] == whole;
        var w, next;
        next, w := Emit(buf, r.wptr, c, lay, list, whole);
        r := Filled(next);
      } else {
        assert whole == list;
      }
      SizeIsExact(nodes, procs, t, lay);
    }
  }

  lemma NothingHeld(words: seq<Word>, lay: Layout)
    requires forall k :: 0 <= k < |words| ==> words[k] == Blank
    ensures HoldsPackets(words, [], lay)
  {
  }

  /** pm_create_runlist_ib: a buffer of the computed size, cleared and filled. */
  method CreateRunlistIb(nodes: seq<nat>, procs: map<nat, Proc>, processes: int, t: Tally, lay: Layout)
    returns (buf: array<Word>)
    requires lay.Valid()
    requires forall p <- nodes :: p in procs
    requires processes == |nodes| && Sum(Active, nodes, procs) <= t.active
    ensures fresh(buf) && 4 * buf.Length == RlibSize(processes, t, lay)
    ensures HoldsPackets(buf[..], RunlistPackets(nodes, procs, processes, t, lay), lay)
    ensures buf.Length == |Encode(RunlistPackets(nodes, procs, processes, t, lay), lay)|
       <==> t.active == Sum(Active, nodes, procs)
  {
    hide Encode, Sum, HoldsPackets, RunlistPackets;
    SizeSuffices(nodes, procs, t, lay);
    buf := new Word[RlibSize(processes, t, lay) / 4](_ => Blank);
    var r, warned := FillRunlistIb(buf, nodes, procs, processes, t, lay);
    assert !warned;
  }

  // ----- which queues a runlist maps

  function MappedQueues(ps: seq<Packet>): seq<(nat, nat)> {
    if ps == [] then [] else
      var p := ps[|ps| - 1];
      MappedQueues(ps[..|ps| - 1]) + if p.MapQueue? then [(p.pid, p.qid)] else []
  }

  /** Active queues of one list, in list order. */
  function ActiveIn(pid: nat, qs: seq<Queue>): seq<(nat, nat)> {
    if qs == [] then [] else
      var q := qs[|qs| - 1];
      ActiveIn(pid, qs[..|qs| - 1]) + if q.active then [(pid, q.id)] else []
  }

  function ActiveOf(pid: nat, p: Proc): seq<(nat, nat)> {
    ActiveIn(pid, p.kernelQueues) + ActiveIn(pid, p.queues)
  }

  /** The active queues of all registered processes, in list order. */
  function ActiveQueues(nodes: seq<nat>, procs: map<nat, Proc>): seq<(nat, nat)>
    requires forall p <- nodes :: p in procs
  {
    if nodes == [] then [] else
      ActiveQueues(nodes[..|nodes| - 1], procs)
        + ActiveOf(nodes[|nodes| - 1], procs[nodes[|nodes| - 1]])
  }

  lemma {:induction false} MappedConcat(a: seq<Packet>, b: seq<Packet>)
    ensures MappedQueues(a + b) == MappedQueues(a) + MappedQueues(b)
  {
    if b == [] {
      assert a + b == a;
    } else {
      MappedConcat(a, b[..|b| - 1]);
      assert (a + b)[..|a + b| - 1] == a + b[..|b| - 1];
    }
  }

  lemma {:induction false} MappedInQueues(pid: nat, isStatic: bool, qs: seq<Queue>)
    ensures MappedQueues(QueuePackets(pid, isStatic, qs)) == ActiveIn(pid, qs)
  {
    if qs != [] {
      var n := |qs| - 1;
      MappedInQueues(pid, isStatic, qs[..n]);
      var tail := if qs[n].active then [MapQueue(pid, qs[n].id, isStatic)] else [];
      MappedConcat(QueuePackets(pid, isStatic, qs[..n]), tail);
      assert MappedQueues(tail) == if qs[n].active then [(pid, qs[n].id)] else [] by {
        if qs[n].active {
          assert tail[..0] == [];
        }
      }
    }
  }

  lemma MappedInProc(pid: nat, p: Proc)
    ensures MappedQueues(ProcPackets(pid, p)) == ActiveOf(pid, p)
  {
    assert MappedQueues([MapProcess(pid)]) == MappedQueues([]);
    hide MappedQueues, QueuePackets, ActiveIn;
    var k := QueuePackets(pid, p.isDebug, p.kernelQueues);
    var u := QueuePackets(pid, p.isDebug, p.queues);
    MappedInQueues(pid, p.isDebug, p.kernelQueues);
    MappedInQueues(pid, p.isDebug, p.queues);
    MappedConcat([MapProcess(pid)] + k, u);
    MappedConcat([MapProcess(pid)], k);
    MappedNothing();
  }

  lemma MappedNothing()
    ensures MappedQueues([]) == []
  {
  }

  /** A built runlist maps exactly the active queues, in list order. */
  lemma {:induction false} MappedInList(nodes: seq<nat>, procs: map<nat, Proc>)
    requires forall p <- nodes :: p in procs
    ensures MappedQueues(ListPackets(nodes, procs)) == ActiveQueues(nodes, procs)
  {
    if nodes != [] {
      var n := |nodes| - 1;
      var pid, p := nodes[n], procs[nodes[n]];
      MappedInList(nodes[..n], procs);
      hide ProcPackets, ActiveOf;
      MappedConcat(ListPackets(nodes[..n], procs), ProcPackets(pid, p));
      MappedInProc(pid, p);
    }
  }

  lemma MappedInRunlist(nodes: seq<nat>, procs: map<nat, Proc>, processes: int, t: Tally, lay: Layout)
    requires forall p <- nodes :: p in procs
    ensures MappedQueues(RunlistPackets(nodes, procs, processes, t, lay)) == ActiveQueues(nodes, procs)
  {
    MappedInList(nodes, procs);
    var ps := ListPackets(nodes, procs);
    if OverSubscribed(processes, t, lay) {
      var total := RlibSize(processes, t, lay) / 4;
      var c := Chain(if total >= 0 then total else 0);
      MappedConcat(ps, [c]);
      assert MappedQueues([c]) == MappedQueues([]);
    } else {
      assert ps + [] == ps;
    }
  }
}
