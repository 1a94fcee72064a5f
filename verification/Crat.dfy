/**
  The virtual CRAT for CPUs: a header followed by variable-length entries, built for the
  online NUMA nodes into a buffer sized beforehand, and parsed back into topology devices.
  Entries are whole records kept at their byte offsets.
 */
module Crat {
  import opened Basics
  import opened Arithmetic

  const PAGE_SIZE: nat := 4096

  /** Sizes of the packed structs. */
  const HEADER: nat := 48
  const GENERIC: nat := 8
  const CU: nat := 40
  const MEMORY: nat := 40
  const IOLINK: nat := 64

  datatype LinkType = HyperTransport | Qpi11

  datatype Entry =
    | ComputeUnit(domain: nat, apic: nat, cores: nat)
    | Memory(domain: nat, low: nat, high: nat)
    | IoLink(from: nat, to: nat, linkType: LinkType)

  function Size(e: Entry): (r: nat)
    ensures GENERIC < r
  {
    match e
    case ComputeUnit(_, _, _) => CU
    case Memory(_, _, _) => MEMORY
    case IoLink(_, _, _) => IOLINK
  }

  function Bytes(es: seq<Entry>): nat {
    if es == [] then 0 else Bytes(es[..|es| - 1]) + Size(es[|es| - 1])
  }

  lemma {:induction false} BytesConcat(a: seq<Entry>, b: seq<Entry>)
    ensures Bytes(a + b) == Bytes(a) + Bytes(b)
  {
    if b == [] {
      assert a + b == a;
    } else {
      BytesConcat(a, b[..|b| - 1]);
      assert (a + b)[..|a + b| - 1] == a + b[..|b| - 1];
    }
  }

  lemma BytesSnoc(es: seq<Entry>, e: Entry)
    ensures Bytes(es + [e]) == Bytes(es) + Size(e)
  {
    assert (es + [e])[..|es|] == es;
  }

  // ----- what is to be described

  /** An online NUMA node: the APIC id of its first CPU, its CPUs and its managed pages. */
  datatype Node = Node(apic: Option<nat>, cores: nat, pages: nat)

  function MemoryBytes(n: Node): nat { (n.pages * PAGE_SIZE) % TWO64 }

  function LinksTo(from: nat, n: nat, t: LinkType): seq<Entry> {
    if n == 0 then [] else LinksTo(from, n - 1, t) + if n - 1 != from then [IoLink(from, n - 1, t)] else []
  }

  /** Entries for one node; its domain is the number of nodes described before it. */
  function NodeEntries(node: Node, id: nat, domain: nat, n: nat, t: LinkType): seq<Entry>
    requires node.apic.Some?
  {
    [ComputeUnit(domain, node.apic.value, node.cores % TWO16),
     Memory(domain, MemoryBytes(node) % TWO32, MemoryBytes(node) / TWO32)]
      + LinksTo(id, n, t)
  }

  /** Nodes with an APIC id among the first k. */
  function Domains(nodes: seq<Node>, k: nat): nat
    requires k <= |nodes|
  {
    if k == 0 then 0 else Domains(nodes, k - 1) + if nodes[k - 1].apic.Some? then 1 else 0
  }

  function Entries(nodes: seq<Node>, k: nat, t: LinkType): seq<Entry>
    requires k <= |nodes|
  {
    if k == 0 then [] else
      Entries(nodes, k - 1, t)
        + if nodes[k - 1].apic.None? then []
          else NodeEntries(nodes[k - 1], k - 1, Domains(nodes, k - 1), |nodes|, t)
  }

  // ----- sizing (kfd_create_crat_image_virtual)

  function DynSize(n: nat): int { HEADER + n * NodeBytes(n) }

  lemma NoBytes()
    ensures Bytes([]) == 0
  {
  }

  lemma {:induction false} LinkCount(from: nat, n: nat, t: LinkType)
    ensures |LinksTo(from, n, t)| == n - (if from < n then 1 else 0)
    ensures Bytes(LinksTo(from, n, t)) == |LinksTo(from, n, t)| * IOLINK
  {
    hide Bytes;
    NoBytes();
    if n > 0 {
      LinkCount(from, n - 1, t);
      if n - 1 != from {
        BytesSnoc(LinksTo(from, n - 1, t), IoLink(from, n - 1, t));
      } else {
        assert LinksTo(from, n, t) == LinksTo(from, n - 1, t);
      }
    }
  }

  lemma NodeSize(node: Node, id: nat, domain: nat, n: nat, t: LinkType)
    requires node.apic.Some? && id < n
    ensures |NodeEntries(node, id, domain, n, t)| == n + 1
    ensures Bytes(NodeEntries(node, id, domain, n, t)) == NodeBytes(n)
  {
    LinkCount(id, n, t);
    var a := ComputeUnit(domain, node.apic.value, node.cores % TWO16);
    var b := Memory(domain, MemoryBytes(node) % TWO32, MemoryBytes(node) / TWO32);
    BytesConcat([a, b], LinksTo(id, n, t));
    BytesSnoc([], a);
    BytesSnoc([a], b);
    assert [] + [a] == [a] && [a] + [b] == [a, b];
  }

  /** What one node takes. */
  function NodeBytes(n: nat): int { CU + MEMORY + (n - 1) * IOLINK }

  lemma EntriesNext(nodes: seq<Node>, k: nat, t: LinkType)
    requires k < |nodes|
    ensures var more := if nodes[k].apic.Some? then 1 else 0;
      && Domains(nodes, k + 1) == Domains(nodes, k) + more
      && (more == 1 ==>
            && Bytes(Entries(nodes, k + 1, t)) == Bytes(Entries(nodes, k, t)) + NodeBytes(|nodes|)
            && |Entries(nodes, k + 1, t)| == |Entries(nodes, k, t)| + |nodes| + 1)
      && (more == 0 ==> Entries(nodes, k + 1, t) == Entries(nodes, k, t))
  {
    hide Bytes, NodeEntries, NodeBytes;
    if nodes[k].apic.Some? {
      NodeSize(nodes[k], k, Domains(nodes, k), |nodes|, t);
      BytesConcat(Entries(nodes, k, t), NodeEntries(nodes[k], k, Domains(nodes, k), |nodes|, t));
    }
  }

  function Times(k: nat, w: int): int { if k == 0 then 0 else Times(k - 1, w) + w }

  lemma {:induction false} TimesIsProduct(k: nat, w: int)
    ensures Times(k, w) == k * w
  {
    if k > 0 {
      TimesIsProduct(k - 1, w);
      MulStep(k - 1, w);
    }
  }

  lemma EntriesNone(nodes: seq<Node>, t: LinkType)
    ensures Entries(nodes, 0, t) == [] && Domains(nodes, 0) == 0
  {
  }

  lemma {:induction false} EntriesSize(nodes: seq<Node>, k: nat, t: LinkType)
    requires k <= |nodes|
    ensures Bytes(Entries(nodes, k, t)) == Times(Domains(nodes, k), NodeBytes(|nodes|))
    ensures |Entries(nodes, k, t)| == Times(Domains(nodes, k), |nodes| + 1)
  {
    hide Entries, Domains, Bytes, NodeEntries, NodeBytes;
    EntriesNone(nodes, t);
    NoBytes();
    if k > 0 {
      EntriesSize(nodes, k - 1, t);
      EntriesNext(nodes, k - 1, t);
    }
  }

  /** The image always fits, and fills the buffer exactly when every node has an APIC id. */
  lemma SizingIsExact(nodes: seq<Node>, t: LinkType)
    ensures HEADER + Bytes(Entries(nodes, |nodes|, t)) <= DynSize(|nodes|)
    ensures HEADER + Bytes(Entries(nodes, |nodes|, t)) == DynSize(|nodes|) <==> forall n <- nodes :: n.apic.Some?
    ensures (forall n <- nodes :: n.apic.Some?) ==> |Entries(nodes, |nodes|, t)| == |nodes| * (|nodes| + 1)
  {
    var n := |nodes|;
    EntriesSize(nodes, n, t);
    TimesIsProduct(Domains(nodes, n), NodeBytes(n));
    TimesIsProduct(Domains(nodes, n), n + 1);
    AllDomains(nodes, n);
    if n > 0 {
      MulMono(Domains(nodes, n), n, NodeBytes(n));
      if Domains(nodes, n) < n {
        MulMono(Domains(nodes, n) + 1, n, NodeBytes(n));
        MulStep(Domains(nodes, n), NodeBytes(n));
      }
    }
  }

  lemma {:induction false} AllDomains(nodes: seq<Node>, k: nat)
    requires k <= |nodes|
    ensures Domains(nodes, k) <= k
    ensures Domains(nodes, k) == k <==> forall i :: 0 <= i < k ==> nodes[i].apic.Some?
  {
    if k > 0 {
      AllDomains(nodes, k - 1);
    }
  }

  // ----- the image

  function Offset(es: seq<Entry>, i: nat): nat
    requires i <= |es|
  {
    HEADER + Bytes(es[..i])
  }

  /** Each entry stands where the previous one ends. */
  ghost predicate Holds(image: map<nat, Entry>, es: seq<Entry>) {
    forall i :: 0 <= i < |es| ==> Offset(es, i) in image && image[Offset(es, i)] == es[i]
  }

  lemma {:induction false} BytesMono(es: seq<Entry>, i: nat, j: nat)
    requires i <= j <= |es|
    ensures Bytes(es[..i]) <= Bytes(es[..j])
    ensures i < j ==> Bytes(es[..i]) + Size(es[i]) <= Bytes(es[..j])
  {
    if i < j {
      assert es[..j][..j - 1] == es[..j - 1];
      BytesMono(es, i, j - 1);
    }
  }

  lemma HoldsSnoc(image: map<nat, Entry>, es: seq<Entry>, e: Entry)
    requires Holds(image, es)
    ensures Holds(image[HEADER + Bytes(es) := e], es + [e])
  {
    hide Bytes;
    var es1 := es + [e];
    forall i | 0 <= i < |es1|
      ensures Offset(es1, i) in image[HEADER + Bytes(es) := e] && image[HEADER + Bytes(es) := e][Offset(es1, i)] == es1[i]
    {
      if i < |es| {
        assert es1[..i] == es[..i];
        BytesMono(es, i, |es|);
        assert es[..|es|] == es;
        assert Offset(es1, i) == Offset(es, i);
      } else {
        assert es1[..i] == es;
      }
    }
  }

  class CratImage {
    var image: map<nat, Entry>
    var avail: int
    var length: nat
    var total: nat
    var domains: nat
    ghost var entries: seq<Entry>
    ghost var size: int

    ghost predicate Valid()
      reads this
    {
      && Holds(image, entries)
      && length == HEADER + Bytes(entries) && total == |entries|
      && avail == size - length && avail >= 0
    }

    constructor (bufSize: nat)
      requires HEADER <= bufSize
      ensures Valid() && entries == [] && size == bufSize && domains == 0
    {
      image, avail, length, total, domains := map[], bufSize - HEADER, HEADER, 0, 0;
      entries, size := [], bufSize;
    }

    /** Write one entry at the end; false when it does not fit. */
    method Append(e: Entry) returns (ok: bool)
      requires Valid()
      modifies this`image, this`avail, this`length, this`total, this`entries
      ensures ok <==> HEADER + Bytes(old(entries)) + Size(e) <= size
      ensures ok ==> Valid() && entries == old(entries) + [e]
    {
      hide Bytes, Holds;
      avail := avail - Size(e);
      if avail < 0 { return false; }
      HoldsSnoc(image, entries, e);
      BytesSnoc(entries, e);
      image := image[length := e];
      length := length + Size(e);
      total := total + 1;
      entries := entries + [e];
      return true;
    }

    /** kfd_fill_iolink_info_for_cpu */
    method FillLinks(id: nat, n: nat, t: LinkType) returns (ok: bool)
      requires Valid()
      modifies this`image, this`avail, this`length, this`total, this`entries
      ensures ok <==> HEADER + Bytes(old(entries) + LinksTo(id, n, t)) <= size
      ensures ok ==> Valid() && entries == old(entries) + LinksTo(id, n, t)
    {
      hide Bytes, Holds;
      assert old(entries) + LinksTo(id, 0, t) == old(entries);
      for nid := 0 to n
        invariant Valid() && entries == old(entries) + LinksTo(id, nid, t)
      {
        ghost var so := old(entries) + LinksTo(id, nid, t);
        LinksGrow(old(entries), id, nid + 1, n, t);
        if nid != id {
          BytesSnoc(so, IoLink(id, nid, t));
          assert so + [IoLink(id, nid, t)] == old(entries) + LinksTo(id, nid + 1, t);
          ok := Append(IoLink(id, nid, t));
          if !ok { return; }
        } else {
          assert so == old(entries) + LinksTo(id, nid + 1, t);
        }
      }
      return true;
    }

    /** One node of kfd_create_vcrat_image_cpu. */
    method FillNode(node: Node, id: nat, n: nat, t: LinkType) returns (ok: bool)
      requires Valid() && node.apic.Some?
      modifies this
      ensures size == old(size)
      ensures ok <==> HEADER + Bytes(old(entries) + NodeEntries(node, id, old(domains), n, t)) <= size
      ensures ok ==>
        Valid() && entries == old(entries) + NodeEntries(node, id, old(domains), n, t) && domains == old(domains) + 1
    {
      hide Holds, Bytes;
      var a := ComputeUnit(domains, node.apic.value, node.cores % TWO16);
      var b := Memory(domains, MemoryBytes(node) % TWO32, MemoryBytes(node) / TWO32);
      ghost var es := old(entries);
      BytesSnoc(es, a);
      BytesSnoc(es + [a], b);
      assert es + [a] + [b] + LinksTo(id, n, t) == es + NodeEntries(node, id, old(domains), n, t);
      BytesConcat(es + [a] + [b], LinksTo(id, n, t));
      ok := Append(a);
      if !ok { return; }
      ok := Append(b);
      if !ok { return; }
      ok := FillLinks(id, n, t);
      if !ok { return; }
      domains := domains + 1;
    }

    /**
      kfd_create_vcrat_image_cpu after the header: it succeeds exactly when the buffer holds
      all the entries, and then they are all there.
     */
    method Fill(nodes: seq<Node>, t: LinkType) returns (ok: bool)
      requires Valid() && entries == [] && domains == 0
      modifies this
      ensures ok <==> HEADER + Bytes(Entries(nodes, |nodes|, t)) <= old(size)
      ensures ok ==> Valid() && entries == Entries(nodes, |nodes|, t) && domains == Domains(nodes, |nodes|)
    {
      hide Holds, Bytes, NodeEntries;
      var n := |nodes|;
      for id := 0 to n
        invariant Valid() && size == old(size)
        invariant entries == Entries(nodes, id, t) && domains == Domains(nodes, id)
      {
        EntriesGrow(nodes, id + 1, n, t);
        if nodes[id].apic.Some? {
          ok := FillNode(nodes[id], id, n, t);
          if !ok { return; }
        }
      }
      return true;
    }
  }

  lemma {:induction false} LinksGrow(es: seq<Entry>, id: nat, a: nat, b: nat, t: LinkType)
    requires a <= b
    ensures Bytes(es + LinksTo(id, a, t)) <= Bytes(es + LinksTo(id, b, t))
  {
    hide Bytes;
    if a < b {
      LinksGrow(es, id, a, b - 1, t);
      BytesConcat(es + LinksTo(id, b - 1, t), if b - 1 != id then [IoLink(id, b - 1, t)] else []);
      assert es + LinksTo(id, b - 1, t) + (if b - 1 != id then [IoLink(id, b - 1, t)] else []) == es + LinksTo(id, b, t);
    }
  }

  lemma {:induction false} EntriesGrow(nodes: seq<Node>, a: nat, b: nat, t: LinkType)
    requires a <= b <= |nodes|
    ensures Bytes(Entries(nodes, a, t)) <= Bytes(Entries(nodes, b, t))
  {
    hide Bytes, NodeEntries;
    if a < b {
      EntriesGrow(nodes, a, b - 1, t);
      BytesConcat(Entries(nodes, b - 1, t),
        if nodes[b - 1].apic.None? then [] else NodeEntries(nodes[b - 1], b - 1, Domains(nodes, b - 1), |nodes|, t));
    }
  }

  /** Sizing and building together: the buffer allocated for the online nodes never runs out. */
  method CreateCpuImage(nodes: seq<Node>, t: LinkType) returns (ok: bool, crat: CratImage)
    requires nodes != []
    ensures ok && fresh(crat) && crat.Valid() && crat.entries == Entries(nodes, |nodes|, t)
    ensures crat.domains == Domains(nodes, |nodes|)
  {
    SizingIsExact(nodes, t);
    crat := new CratImage(DynSize(|nodes|));
    ok := crat.Fill(nodes, t);
  }

  // ----- parsing

  datatype Heap = System | FramebufferPrivate

  datatype Bank = Bank(heap: Heap, bytes: nat)

  datatype Link = Link(from: nat, to: nat, linkType: LinkType)

  /** struct kfd_topology_device */
  datatype Device = Device(domain: nat, cores: nat, coreBase: nat, banks: seq<Bank>, links: seq<Link>)

  /** The first device of a domain, or the end of the list. */
  function FindDevice(devices: seq<Device>, domain: nat, from: nat): (r: nat)
    requires from <= |devices|
    ensures from <= r <= |devices| && (r < |devices| ==> devices[r].domain == domain)
    ensures forall k :: from <= k < r ==> devices[k].domain != domain
    decreases |devices| - from
  {
    if from == |devices| || devices[from].domain == domain then from else FindDevice(devices, domain, from + 1)
  }

  function FindBank(banks: seq<Bank>, heap: Heap, from: nat): (r: nat)
    requires from <= |banks|
    ensures from <= r <= |banks| && (r < |banks| ==> banks[r].heap == heap)
    ensures forall k :: from <= k < r ==> banks[k].heap != heap
    decreases |banks| - from
  {
    if from == |banks| || banks[from].heap == heap then from else FindBank(banks, heap, from + 1)
  }

  /** Banks of one kind are aggregated. */
  function AddBank(d: Device, bytes: nat): Device {
    var heap := if d.cores == 0 then FramebufferPrivate else System;
    var i := FindBank(d.banks, heap, 0);
    if i < |d.banks| then d.(banks := d.banks[i := d.banks[i].(bytes := (d.banks[i].bytes + bytes) % TWO64)])
    else d.(banks := d.banks + [Bank(heap, bytes)])
  }

  /** No kind of memory has two banks. */
  predicate OneEach(banks: seq<Bank>) { forall i, j :: 0 <= i < j < |banks| ==> banks[i].heap != banks[j].heap }

  /** The memory of one kind. */
  function BytesOf(banks: seq<Bank>, heap: Heap): nat {
    if banks == [] then 0
    else BytesOf(banks[..|banks| - 1], heap) + if banks[|banks| - 1].heap == heap then banks[|banks| - 1].bytes else 0
  }

  lemma {:induction false} BytesOfOne(banks: seq<Bank>, heap: Heap, i: nat)
    requires OneEach(banks) && i <= |banks| && (i < |banks| ==> banks[i].heap == heap)
    requires i == |banks| ==> forall k :: 0 <= k < |banks| ==> banks[k].heap != heap
    ensures BytesOf(banks, heap) == if i < |banks| then banks[i].bytes else 0
  {
    if banks != [] {
      var n := |banks| - 1;
      BytesOfOne(banks[..n], heap, if i < n then i else n);
    }
  }

  lemma BankChanged(banks: seq<Bank>, i: nat, x: Bank, h: Heap)
    requires OneEach(banks) && i < |banks| && x.heap == banks[i].heap
    ensures OneEach(banks[i := x])
    ensures BytesOf(banks[i := x], h) == if h == x.heap then x.bytes else BytesOf(banks, h)
  {
    var k := FindBank(banks, h, 0);
    BytesOfOne(banks, h, k);
    BytesOfOne(banks[i := x], h, k);
  }

  lemma BankAdded(banks: seq<Bank>, x: Bank, h: Heap)
    requires OneEach(banks) && forall b <- banks :: b.heap != x.heap
    ensures OneEach(banks + [x])
    ensures BytesOf(banks + [x], h) == BytesOf(banks, h) + if h == x.heap then x.bytes else 0
  {
    assert (banks + [x])[..|banks|] == banks;
  }

  /**
    A memory entry adds to the device's memory of its kind, private for devices without
    cores and system memory otherwise, modulo 2^64, and to no other; there stays one bank
    for each kind.
   */
  lemma AddBankAdds(d: Device, bytes: nat, h: Heap)
    requires OneEach(d.banks) && bytes < TWO64
    ensures var r, heap := AddBank(d, bytes), if d.cores == 0 then FramebufferPrivate else System;
      && OneEach(r.banks) && r == d.(banks := r.banks)
      && BytesOf(r.banks, h) == if h == heap then (BytesOf(d.banks, h) + bytes) % TWO64 else BytesOf(d.banks, h)
  {
    hide OneEach, BytesOf;
    var heap := if d.cores == 0 then FramebufferPrivate else System;
    var i := FindBank(d.banks, heap, 0);
    BytesOfOne(d.banks, heap, i);
    if i < |d.banks| {
      BankChanged(d.banks, i, d.banks[i].(bytes := (d.banks[i].bytes + bytes) % TWO64), h);
    } else {
      BankAdded(d.banks, Bank(heap, bytes), h);
    }
  }

  function Update(d: Device, e: Entry): Device {
    match e
    case ComputeUnit(_, apic, cores) => d.(cores := cores, coreBase := apic)
    case Memory(_, low, high) => AddBank(d, high * TWO32 + low)
    case IoLink(from, to, t) => d.(links := d.links + [Link(from, to, t)])
  }

  function DomainOf(e: Entry): nat { if e.IoLink? then e.from else e.domain }

  /** kfd_parse_subtype: an entry goes to the device of its domain, if there is one. */
  function ParseEntry(devices: seq<Device>, e: Entry): (r: seq<Device>)
    ensures |r| == |devices|
  {
    var i := FindDevice(devices, DomainOf(e), 0);
    if i < |devices| then devices[i := Update(devices[i], e)] else devices
  }

  function ParseAll(devices: seq<Device>, es: seq<Entry>): (r: seq<Device>)
    ensures |r| == |devices|
  {
    if es == [] then devices else ParseEntry(ParseAll(devices, es[..|es| - 1]), es[|es| - 1])
  }

  function FreshDevices(n: nat, first: nat): seq<Device> {
    seq(n, i requires i >= 0 => Device(first + i, 0, 0, [], []))
  }

  /**
    kfd_parse_crat_table on an image that holds the given entries: the walk by entry
    lengths stops after exactly those entries.
   */
  method ParseCratTable(image: map<nat, Entry>, length: nat, domains: nat, first: nat, ghost es: seq<Entry>)
    returns (devices: seq<Device>, parsed: nat)
    requires Holds(image, es) && length == HEADER + Bytes(es)
    ensures parsed == |es| && devices == ParseAll(FreshDevices(domains, first), es)
  {
    devices := [];
    for i := 0 to domains
      invariant devices == FreshDevices(i, first)
    {
      devices := devices + [Device(first + i, 0, 0, [], [])];
    }
    var pos := HEADER;
    parsed := 0;
    assert es[..|es|] == es;
    while pos + GENERIC < length
      invariant parsed <= |es| && pos == Offset(es, parsed)
      invariant devices == ParseAll(FreshDevices(domains, first), es[..parsed])
      decreases |es| - parsed
    {
      assert parsed < |es|;
      assert es[..parsed + 1][..parsed] == es[..parsed];
      var e := image[pos];
      devices := ParseEntry(devices, e);
      pos := pos + Size(e);
      parsed := parsed + 1;
    }
    if parsed < |es| {
      BytesMono(es, parsed, |es|);
    }
  }

  // ----- the round trip

  lemma {:induction false} ParseConcat(devices: seq<Device>, a: seq<Entry>, b: seq<Entry>)
    ensures ParseAll(devices, a + b) == ParseAll(ParseAll(devices, a), b)
  {
    if b == [] {
      assert a + b == a;
    } else {
      ParseConcat(devices, a, b[..|b| - 1]);
      assert (a + b)[..|a + b| - 1] == a + b[..|b| - 1];
    }
  }

  function LinkList(from: nat, n: nat, t: LinkType): seq<Link> {
    if n == 0 then [] else LinkList(from, n - 1, t) + if n - 1 != from then [Link(from, n - 1, t)] else []
  }

  /** A node the driver describes, within the widths of the fields. */
  predicate Describable(node: Node) {
    node.apic.Some? && 0 < node.cores < TWO16 && node.pages * PAGE_SIZE < TWO64
  }

  ghost predicate AllDescribable(nodes: seq<Node>) {
    forall i :: 0 <= i < |nodes| && nodes[i].apic.Some? ==> Describable(nodes[i])
  }

  /** Each device has its index as domain, as after parsing with first domain 0. */
  predicate Numbered(devices: seq<Device>) { forall i :: 0 <= i < |devices| ==> devices[i].domain == i }

  lemma ParseAtDomain(devices: seq<Device>, e: Entry)
    requires Numbered(devices)
    ensures DomainOf(e) < |devices| ==> ParseEntry(devices, e) == devices[DomainOf(e) := Update(devices[DomainOf(e)], e)]
    ensures DomainOf(e) >= |devices| ==> ParseEntry(devices, e) == devices
    ensures Numbered(ParseEntry(devices, e))
  {
    if DomainOf(e) < |devices| {
      assert devices[DomainOf(e)].domain == DomainOf(e);
    }
  }

  lemma ParseOne(devices: seq<Device>, e: Entry)
    ensures ParseAll(devices, [e]) == ParseEntry(devices, e)
  {
    assert [e][..0] == [];
  }

  /** The links of a node go to the device numbered like the node, or nowhere. */
  function WithLinks(devices: seq<Device>, id: nat, n: nat, t: LinkType): seq<Device> {
    if id < |devices| then devices[id := devices[id].(links := LinkList(id, n, t))] else devices
  }

  lemma ParseLink(devices: seq<Device>, id: nat, n: nat, t: LinkType)
    requires Numbered(devices) && n != id
    ensures ParseEntry(WithLinks(devices, id, n, t), IoLink(id, n, t)) == WithLinks(devices, id, n + 1, t)
  {
    hide ParseEntry;
    var so := WithLinks(devices, id, n, t);
    ParseAtDomain(so, IoLink(id, n, t));
    if id < |devices| {
      assert LinkList(id, n + 1, t) == LinkList(id, n, t) + [Link(id, n, t)];
    }
  }

  lemma NoLinks(devices: seq<Device>, id: nat, t: LinkType)
    requires id < |devices| ==> devices[id].links == []
    ensures WithLinks(devices, id, 0, t) == devices && ParseAll(devices, LinksTo(id, 0, t)) == devices
    ensures WithLinks(devices, id, id + 1, t) == WithLinks(devices, id, id, t)
  {
    assert LinkList(id, id + 1, t) == LinkList(id, id, t);
  }

  lemma {:induction false} ParseLinks(devices: seq<Device>, id: nat, n: nat, t: LinkType)
    requires Numbered(devices) && (id < |devices| ==> devices[id].links == [])
    ensures ParseAll(devices, LinksTo(id, n, t)) == WithLinks(devices, id, n, t)
  {
    hide ParseEntry, WithLinks, ParseAll;
    NoLinks(devices, id, t);
    if n > 0 {
      ParseLinks(devices, id, n - 1, t);
      if n - 1 != id {
        var e := IoLink(id, n - 1, t);
        ParseConcat(devices, LinksTo(id, n - 1, t), [e]);
        ParseOne(WithLinks(devices, id, n - 1, t), e);
        ParseLink(devices, id, n - 1, t);
      } else {
        assert LinksTo(id, n, t) == LinksTo(id, n - 1, t);
      }
    }
  }

  lemma SplitJoin(x: nat)
    ensures (x / TWO32) * TWO32 + x % TWO32 == x
  {
  }

  lemma FirstBank(d: Device, node: Node)
    requires Describable(node) && d.cores > 0 && d.banks == []
    ensures var bytes := MemoryBytes(node);
      AddBank(d, (bytes / TWO32) * TWO32 + bytes % TWO32) == d.(banks := [Bank(System, node.pages * PAGE_SIZE)])
  {
    SplitJoin(MemoryBytes(node));
  }

  /** A node's cores and memory, at the device of its domain. */
  function WithNode(devices: seq<Device>, node: Node, domain: nat): seq<Device>
    requires node.apic.Some? && domain < |devices|
  {
    devices[domain := devices[domain].(cores := node.cores, coreBase := node.apic.value,
                                       banks := [Bank(System, node.pages * PAGE_SIZE)])]
  }

  lemma ParseNode(devices: seq<Device>, node: Node, id: nat, domain: nat, n: nat, t: LinkType)
    requires Describable(node) && Numbered(devices) && domain < |devices|
    requires devices[domain].cores == 0 && devices[domain].banks == []
    requires id < |devices| ==> devices[id].links == []
    ensures ParseAll(devices, NodeEntries(node, id, domain, n, t))
         == WithLinks(WithNode(devices, node, domain), id, n, t)
  {
    hide ParseEntry, ParseAll, AddBank, WithLinks;
    var bytes := MemoryBytes(node);
    var a := ComputeUnit(domain, node.apic.value, node.cores % TWO16);
    var b := Memory(domain, bytes % TWO32, bytes / TWO32);
    ParseConcat(devices, [a, b], LinksTo(id, n, t));
    ParseConcat(devices, [a], [b]);
    assert [a] + [b] == [a, b];
    ParseOne(devices, a);
    ParseAtDomain(devices, a);
    var d1 := ParseEntry(devices, a);
    ParseOne(d1, b);
    ParseAtDomain(d1, b);
    FirstBank(d1[domain], node);
    var d2 := ParseEntry(d1, b);
    assert d2 == WithNode(devices, node, domain);
    ParseLinks(d2, id, n, t);
  }

  // ----- the topology an image stands for

  /** The node with the e-th APIC id, among the first k. */
  function Nth(nodes: seq<Node>, e: nat, k: nat): (i: nat)
    requires k <= |nodes| && e < Domains(nodes, k)
    ensures i < k && nodes[i].apic.Some? && Domains(nodes, i) == e
  {
    if nodes[k - 1].apic.Some? && Domains(nodes, k - 1) == e then k - 1 else Nth(nodes, e, k - 1)
  }

  /** The device of domain e once the entries of the first k nodes are parsed. */
  function DeviceAt(nodes: seq<Node>, e: nat, k: nat, t: LinkType): Device
    requires k <= |nodes| && e < |nodes|
  {
    var links := if e < k && nodes[e].apic.Some? then LinkList(e, |nodes|, t) else [];
    if e < Domains(nodes, k)
    then var node := nodes[Nth(nodes, e, k)];
         Device(e, node.cores, node.apic.value, [Bank(System, node.pages * PAGE_SIZE)], links)
    else Device(e, 0, 0, [], links)
  }

  function Devices(nodes: seq<Node>, d: nat, k: nat, t: LinkType): seq<Device>
    requires k <= |nodes| && d <= |nodes|
  {
    seq(d, e requires 0 <= e < d => DeviceAt(nodes, e, k, t))
  }

  lemma {:induction false} DomainsMono(nodes: seq<Node>, j: nat, k: nat)
    requires j <= k <= |nodes|
    ensures Domains(nodes, j) <= Domains(nodes, k) && Domains(nodes, k) <= k
    ensures j < k && nodes[j].apic.Some? ==> Domains(nodes, j) < Domains(nodes, k)
  {
    if j < k {
      DomainsMono(nodes, j, k - 1);
    } else if k > 0 {
      DomainsMono(nodes, k - 1, k - 1);
    }
  }

  /** What one more node's entries do to one device. */
  lemma DeviceNext(nodes: seq<Node>, e: nat, k: nat, t: LinkType)
    requires k < |nodes| && e < |nodes|
    ensures var b := DeviceAt(nodes, e, k, t);
      && b.domain == e
      && (nodes[k].apic.None? ==> DeviceAt(nodes, e, k + 1, t) == b)
      && (nodes[k].apic.Some? ==>
            && (e == Domains(nodes, k) ==> b.cores == 0 && b.banks == [])
            && (e == k ==> b.links == [])
            && var c := if e == Domains(nodes, k)
                        then b.(cores := nodes[k].cores, coreBase := nodes[k].apic.value,
                                banks := [Bank(System, nodes[k].pages * PAGE_SIZE)])
                        else b;
               DeviceAt(nodes, e, k + 1, t) == if e == k then c.(links := LinkList(k, |nodes|, t)) else c)
  {
    hide LinkList;
    DomainsMono(nodes, k, k);
  }

  /** Parsing one more node's entries. */
  lemma DevicesNext(nodes: seq<Node>, d: nat, k: nat, t: LinkType)
    requires k < |nodes| && d == Domains(nodes, |nodes|) && d <= |nodes|
    ensures nodes[k].apic.None? ==> Devices(nodes, d, k + 1, t) == Devices(nodes, d, k, t)
    ensures nodes[k].apic.Some? ==>
      var so, e := Devices(nodes, d, k, t), Domains(nodes, k);
      && |so| == d && Numbered(so) && e < d && so[e].cores == 0 && so[e].banks == [] && (k < d ==> so[k].links == [])
      && Devices(nodes, d, k + 1, t) == WithLinks(WithNode(so, nodes[k], e), k, |nodes|, t)
  {
    hide LinkList, DeviceAt, Domains;
    DomainsMono(nodes, k, |nodes|);
    forall e | 0 <= e < d ensures DeviceAt(nodes, e, k, t).domain == e {
      DeviceNext(nodes, e, k, t);
    }
    var so, to := Devices(nodes, d, k, t), Devices(nodes, d, k + 1, t);
    if nodes[k].apic.None? {
      forall e | 0 <= e < d ensures to[e] == so[e] {
        DeviceNext(nodes, e, k, t);
      }
    } else {
      DeviceNext(nodes, Domains(nodes, k), k, t);
      DeviceNext(nodes, k, k, t);
      var r := WithLinks(WithNode(so, nodes[k], Domains(nodes, k)), k, |nodes|, t);
      forall e | 0 <= e < d ensures to[e] == r[e] {
        DeviceNext(nodes, e, k, t);
      }
    }
  }

  lemma {:induction false} ParseNodes(nodes: seq<Node>, d: nat, k: nat, t: LinkType)
    requires k <= |nodes| && AllDescribable(nodes) && d == Domains(nodes, |nodes|) && d <= |nodes|
    ensures ParseAll(FreshDevices(d, 0), Entries(nodes, k, t)) == Devices(nodes, d, k, t)
  {
    hide NodeEntries, Devices, FreshDevices, ParseAll, Entries, AllDescribable, WithLinks, WithNode, LinkList;
    if k == 0 {
      NoneParsed(nodes, d, t);
    } else {
      ParseNodes(nodes, d, k - 1, t);
      DevicesNext(nodes, d, k - 1, t);
      EntriesStep(nodes, k - 1, t);
      if nodes[k - 1].apic.Some? {
        var e := Domains(nodes, k - 1);
        ParseConcat(FreshDevices(d, 0), Entries(nodes, k - 1, t), NodeEntries(nodes[k - 1], k - 1, e, |nodes|, t));
        ParseNode(Devices(nodes, d, k - 1, t), nodes[k - 1], k - 1, e, |nodes|, t);
      }
    }
  }

  lemma EntriesStep(nodes: seq<Node>, k: nat, t: LinkType)
    requires k < |nodes| && AllDescribable(nodes)
    ensures nodes[k].apic.None? ==> Entries(nodes, k + 1, t) == Entries(nodes, k, t)
    ensures nodes[k].apic.Some? ==>
      && Describable(nodes[k])
      && Entries(nodes, k + 1, t) == Entries(nodes, k, t) + NodeEntries(nodes[k], k, Domains(nodes, k), |nodes|, t)
  {
    hide NodeEntries;
  }

  lemma NoneParsed(nodes: seq<Node>, d: nat, t: LinkType)
    requires d <= |nodes|
    ensures ParseAll(FreshDevices(d, 0), Entries(nodes, 0, t)) == Devices(nodes, d, 0, t)
  {
    assert FreshDevices(d, 0) == Devices(nodes, d, 0, t);
  }

  /**
    Building and parsing back, for any set of online nodes: one device per node with an
    APIC id, in order, with that node's cores and one memory bank of its size. Its links
    are those of the node that has the device's number, if that node has an APIC id.
   */
  method BuildAndParse(nodes: seq<Node>, t: LinkType) returns (devices: seq<Device>, length: int, parsed: nat)
    requires nodes != [] && AllDescribable(nodes)
    ensures length <= DynSize(|nodes|) && |devices| <= |nodes|
    ensures |devices| == Domains(nodes, |nodes|) && devices == Devices(nodes, |devices|, |nodes|, t)
    ensures (forall x <- nodes :: x.apic.Some?) ==>
      && length == DynSize(|nodes|) && parsed == |nodes| * (|nodes| + 1) && |devices| == |nodes|
      && forall i :: 0 <= i < |nodes| ==>
           devices[i] == Device(i, nodes[i].cores, nodes[i].apic.value, [Bank(System, nodes[i].pages * PAGE_SIZE)],
                                LinkList(i, |nodes|, t))
  {
    var ok, crat := CreateCpuImage(nodes, t);
    SizingIsExact(nodes, t);
    AllDomains(nodes, |nodes|);
    ParseNodes(nodes, Domains(nodes, |nodes|), |nodes|, t);
    length := crat.length;
    devices, parsed := ParseCratTable(crat.image, crat.length, crat.domains, 0, crat.entries);
    if forall x <- nodes :: x.apic.Some? {
      AllPresent(nodes, t);
    }
  }

  /** With an APIC id on every node, each device is its own node's. */
  lemma AllPresent(nodes: seq<Node>, t: LinkType)
    requires forall x <- nodes :: x.apic.Some?
    ensures forall i :: 0 <= i < |nodes| ==>
      DeviceAt(nodes, i, |nodes|, t)
        == Device(i, nodes[i].cores, nodes[i].apic.value, [Bank(System, nodes[i].pages * PAGE_SIZE)],
                  LinkList(i, |nodes|, t))
  {
    var n := |nodes|;
    AllDomains(nodes, n);
    forall i | 0 <= i < n
      ensures DeviceAt(nodes, i, n, t)
           == Device(i, nodes[i].cores, nodes[i].apic.value, [Bank(System, nodes[i].pages * PAGE_SIZE)], LinkList(i, n, t))
    {
      AllDomains(nodes, Nth(nodes, i, n));
    }
  }

  /** No node with an APIC id comes behind one without. */
  predicate Contiguous(nodes: seq<Node>) {
    forall i, j :: 0 <= i < j < |nodes| && nodes[j].apic.Some? ==> nodes[i].apic.Some?
  }

  lemma {:induction false} ContiguousDomains(nodes: seq<Node>, k: nat)
    requires Contiguous(nodes) && k <= |nodes| && (k > 0 ==> nodes[k - 1].apic.Some?)
    ensures Domains(nodes, k) == k
  {
    if k > 0 {
      ContiguousDomains(nodes, k - 1);
    }
  }

  /**
    Exactly when the parse is right: every described node's own device, the one with its
    cores and memory, has that node's links, if and only if no node with an APIC id comes
    behind one without. Otherwise link entries carry NUMA ids that the devices were not
    numbered by.
   */
  lemma LinksRightIffContiguous(nodes: seq<Node>, t: LinkType)
    ensures Domains(nodes, |nodes|) <= |nodes|
    ensures (forall i :: 0 <= i < |nodes| && nodes[i].apic.Some? ==>
               && Domains(nodes, i) < Domains(nodes, |nodes|)
               && DeviceAt(nodes, Domains(nodes, i), |nodes|, t).links == LinkList(i, |nodes|, t))
        <==> Contiguous(nodes)
  {
    hide LinkList;
    var n := |nodes|;
    DomainsMono(nodes, n, n);
    if Contiguous(nodes) {
      forall i | 0 <= i < n && nodes[i].apic.Some?
        ensures Domains(nodes, i) < Domains(nodes, n) && DeviceAt(nodes, Domains(nodes, i), n, t).links == LinkList(i, n, t)
      {
        ContiguousDomains(nodes, i);
        DomainsMono(nodes, i, n);
      }
    } else {
      var i, j :| 0 <= i < j < n && nodes[j].apic.Some? && nodes[i].apic.None?;
      DomainsBehind(nodes, i, j);
      WrongLinks(nodes, j, t);
    }
  }

  lemma {:induction false} DomainsBehind(nodes: seq<Node>, i: nat, j: nat)
    requires i < j <= |nodes| && nodes[i].apic.None?
    ensures Domains(nodes, j) < j
  {
    DomainsMono(nodes, i, i);
    if j > i + 1 {
      DomainsBehind(nodes, i, j - 1);
    }
  }

  /** A node whose device has a lower number finds other links there. */
  lemma WrongLinks(nodes: seq<Node>, j: nat, t: LinkType)
    requires j < |nodes| && nodes[j].apic.Some? && Domains(nodes, j) < j
    ensures DeviceAt(nodes, Domains(nodes, j), |nodes|, t).links != LinkList(j, |nodes|, t)
  {
    var e, n := Domains(nodes, j), |nodes|;
    LinkListLength(j, n, t);
    LinkListLength(e, n, t);
    assert LinkList(j, n, t)[0] in LinkList(j, n, t);
    if nodes[e].apic.Some? {
      assert LinkList(e, n, t)[0] in LinkList(e, n, t);
    }
  }

  lemma {:induction false} LinkListLength(from: nat, n: nat, t: LinkType)
    ensures |LinkList(from, n, t)| == n - (if from < n then 1 else 0)
    ensures forall l <- LinkList(from, n, t) :: l.from == from && l.to < n && l.to != from
    ensures forall to: nat :: to < n && to != from ==> Link(from, to, t) in LinkList(from, n, t)
  {
    if n > 0 {
      LinkListLength(from, n - 1, t);
    }
  }
}
