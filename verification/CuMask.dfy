/**
  Symmetric CU masking: the user's mask bits are dealt out to the active compute units in
  cu-major, then shader-array, then shader-engine order. Masks are modelled as the sets of
  their one bits.
 */
module CuMask {
  import opened Arithmetic

  const MAX_SE := 8
  const MAX_SH := 2
  const CU_SLOTS := 16

  /** What the device looks like from one compute die. */
  datatype Geometry = Geometry(ses: nat, shs: nat, bitmap: seq<seq<set<nat>>>, shMul: nat, wgp: bool)
  {
    /** The CU bitmap is laid out in four columns. */
    predicate Valid() {
      && |bitmap| == 4
      && forall se: nat, sh: nat :: se < ses && sh < shs ==> Row(se, sh) < |bitmap[se % 4]|
    }

    function Row(se: nat, sh: nat): nat { sh + (se / 4) * shMul }

    /** Active CUs of one shader array. */
    function CuPerSh(se: nat, sh: nat): nat
      requires Valid() && se < ses && sh < shs
    {
      |bitmap[se % 4][Row(se, sh)]|
    }

    function CuInc(): nat { if wgp then 2 else 1 }
  }

  datatype Cell = Cell(cu: nat, sh: nat, se: nat)

  predicate Before(a: Cell, b: Cell) {
    a.cu < b.cu || (a.cu == b.cu && (a.sh < b.sh || (a.sh == b.sh && a.se < b.se)))
  }

  /** The order is that of the numbers the device's units get, engine by engine, then array by array. */
  lemma BeforeMeans(shs: nat, ses: nat, a: Cell, b: Cell)
    requires a.sh < shs && a.se < ses && b.sh < shs && b.se < ses
    ensures Before(a, b) <==> (a.cu * shs + a.sh) * ses + a.se < (b.cu * shs + b.sh) * ses + b.se
  {
    Lexicographic(a.cu, a.sh, b.cu, b.sh, shs);
    Lexicographic(a.cu * shs + a.sh, a.se, b.cu * shs + b.sh, b.se, ses);
    SamePair(a.cu, a.sh, b.cu, b.sh, shs);
  }

  lemma Lexicographic(x: int, r: int, y: int, s: int, n: int)
    requires 0 <= r < n && 0 <= s < n
    ensures x * n + r < y * n + s <==> x < y || (x == y && r < s)
  {
    MulBounds(x - y, n);
    Distribute(x, -y, n);
    MulBounds(y - x, n);
    Distribute(y, -x, n);
  }

  lemma SamePair(x: nat, r: nat, y: nat, s: nat, n: nat)
    requires r < n && s < n
    ensures x * n + r == y * n + s <==> x == y && r == s
  {
    Lexicographic(x, r, y, s, n);
    Lexicographic(y, s, x, r, n);
  }

  predicate Active(g: Geometry, c: Cell)
    requires g.Valid()
  {
    c.cu < CU_SLOTS && c.cu % g.CuInc() == 0 && c.sh < g.shs && c.se < g.ses && g.CuPerSh(c.se, c.sh) > c.cu
  }

  ghost function ActiveBefore(g: Geometry, c: Cell): set<Cell>
    requires g.Valid()
  {
    set cu, sh, se | 0 <= cu < CU_SLOTS && 0 <= sh < g.shs && 0 <= se < g.ses
                     && Active(g, Cell(cu, sh, se)) && Before(Cell(cu, sh, se), c) :: Cell(cu, sh, se)
  }

  /** How many active cells come before this one. */
  ghost function Rank(g: Geometry, c: Cell): nat
    requires g.Valid()
  {
    |ActiveBefore(g, c)|
  }

  /** The user's mask, how much of it counts, and which die of how many this is. */
  datatype Request = Request(mask: set<nat>, count: nat, inst: nat, xccs: nat)

  /** cu_mask[i / 32] & (en_mask << (i % 32)): on WGP parts either of two bits of one word. */
  predicate MaskBit(g: Geometry, mask: set<nat>, i: nat) {
    i in mask || (g.wgp && i % 32 != 31 && i + 1 in mask)
  }

  function Inc(g: Geometry, q: Request): nat { g.CuInc() * q.xccs }

  /** The ranked specification. */
  ghost predicate Enabled(g: Geometry, q: Request, c: Cell)
    requires g.Valid()
  {
    && Active(g, c)
    && (Rank(g, c) == 0 || q.inst + Rank(g, c) * Inc(g, q) < q.count)
    && MaskBit(g, q.mask, q.inst + Rank(g, c) * Inc(g, q))
  }

  /** The cell whose enable bit (or pair of bits) holds bit b of an engine's mask. */
  function CellOf(g: Geometry, se: nat, b: nat): Cell {
    var cu := b % CU_SLOTS;
    Cell(if g.wgp then cu - cu % 2 else cu, b / CU_SLOTS, se)
  }

  // ----- the order

  lemma RankEmpty(g: Geometry, c: Cell)
    requires g.Valid() && c.cu == 0 && c.sh == 0 && c.se == 0
    ensures Rank(g, c) == 0
  {
    assert ActiveBefore(g, c) == {};
  }

  /** Nothing lies between two cells that are neighbours in the order. */
  ghost predicate Follows(g: Geometry, a: Cell, b: Cell)
    requires g.Valid()
  {
    forall x :: Active(g, x) ==> (Before(x, b) <==> Before(x, a) || x == a)
  }

  lemma RankNext(g: Geometry, a: Cell, b: Cell)
    requires g.Valid() && Follows(g, a, b) && !Before(a, a)
    ensures Rank(g, b) == Rank(g, a) + if Active(g, a) then 1 else 0
  {
    if Active(g, a) {
      assert ActiveBefore(g, b) == ActiveBefore(g, a) + {a};
      assert a !in ActiveBefore(g, a);
    } else {
      assert ActiveBefore(g, b) == ActiveBefore(g, a);
    }
  }

  lemma RankSame(g: Geometry, a: Cell, b: Cell)
    requires g.Valid() && forall x :: Active(g, x) ==> (Before(x, b) <==> Before(x, a))
    ensures Rank(g, b) == Rank(g, a)
  {
    assert ActiveBefore(g, b) == ActiveBefore(g, a);
  }

  lemma SubsetSize<T>(a: set<T>, b: set<T>)
    requires a <= b
    ensures |a| <= |b|
  {
    assert b == a + (b - a);
  }

  /** Every active cell behind an active cell has a higher rank. */
  lemma RankGrows(g: Geometry, a: Cell, x: Cell)
    requires g.Valid() && Active(g, a) && Before(a, x)
    ensures Rank(g, x) >= Rank(g, a) + 1
  {
    assert a !in ActiveBefore(g, a);
    SubsetSize(ActiveBefore(g, a) + {a}, ActiveBefore(g, x));
  }

  /** Once the mask is used up, no cell behind is enabled. */
  lemma UsedUp(g: Geometry, q: Request, a: Cell, x: Cell)
    requires g.Valid() && Active(g, a) && Before(a, x)
    requires q.inst + (Rank(g, a) + 1) * Inc(g, q) >= q.count
    ensures !Enabled(g, q, x)
  {
    RankGrows(g, a, x);
    MulMono(Rank(g, a) + 1, Rank(g, x), Inc(g, q));
  }

  // ----- the mapping

  /** Where the mask index stands when the loops reach a cell. */
  ghost predicate IndexAt(g: Geometry, q: Request, c: Cell, i: nat)
    requires g.Valid()
  {
    i == q.inst + Rank(g, c) * Inc(g, q) && (Rank(g, c) == 0 || i < q.count)
  }

  /** Bits set for one enabled cell: en_mask << (cu + sh * 16). */
  function CellBits(g: Geometry, c: Cell): set<nat> {
    if g.wgp then {c.cu + c.sh * CU_SLOTS, c.cu + 1 + c.sh * CU_SLOTS} else {c.cu + c.sh * CU_SLOTS}
  }

  lemma BitsOfCell(g: Geometry, c: Cell, b: nat)
    requires g.Valid() && Active(g, c)
    ensures b in CellBits(g, c) <==> CellOf(g, c.se, b) == c
  {
  }

  /** Everything before `c` is dealt out as specified, and nothing else. */
  ghost predicate DealtUpTo(g: Geometry, q: Request, se: seq<set<nat>>, c: Cell)
    requires g.Valid() && |se| == g.ses
  {
    forall e, b: nat :: 0 <= e < g.ses ==>
      (b in se[e] <==> Enabled(g, q, CellOf(g, e, b)) && Before(CellOf(g, e, b), c))
  }

  ghost predicate Dealt(g: Geometry, q: Request, se: seq<set<nat>>)
    requires g.Valid() && |se| == g.ses
  {
    forall e, b: nat :: 0 <= e < g.ses ==> (b in se[e] <==> Enabled(g, q, CellOf(g, e, b)))
  }

  /** Handling one active cell. */
  lemma DealOne(g: Geometry, q: Request, se: seq<set<nat>>, c: Cell, d: Cell)
    requires g.Valid() && |se| == g.ses && DealtUpTo(g, q, se, c) && Active(g, c) && Follows(g, c, d)
    ensures var next := if Enabled(g, q, c) then se[c.se := se[c.se] + CellBits(g, c)] else se;
      DealtUpTo(g, q, next, d)
  {
    var next := if Enabled(g, q, c) then se[c.se := se[c.se] + CellBits(g, c)] else se;
    forall e, b: nat | 0 <= e < g.ses
      ensures b in next[e] <==> Enabled(g, q, CellOf(g, e, b)) && Before(CellOf(g, e, b), d)
    {
      hide Rank;
      BitsOfCell(g, c, b);
    }
  }

  lemma DealSkip(g: Geometry, q: Request, se: seq<set<nat>>, c: Cell, d: Cell)
    requires g.Valid() && |se| == g.ses && DealtUpTo(g, q, se, c)
    requires forall x :: Active(g, x) ==> (Before(x, d) <==> Before(x, c))
    ensures DealtUpTo(g, q, se, d)
  {
    hide Rank;
  }

  /** When the mask is used up behind an active cell, the rest of the mapping is empty. */
  lemma DealRest(g: Geometry, q: Request, se: seq<set<nat>>, c: Cell, d: Cell)
    requires g.Valid() && |se| == g.ses && DealtUpTo(g, q, se, d) && Active(g, c) && Follows(g, c, d)
    requires q.inst + (Rank(g, c) + 1) * Inc(g, q) >= q.count
    ensures Dealt(g, q, se)
  {
    forall e, b: nat | 0 <= e < g.ses ensures b in se[e] <==> Enabled(g, q, CellOf(g, e, b)) {
      var x := CellOf(g, e, b);
      if Active(g, x) && !Before(x, d) {
        Trichotomy(x, c);
        UsedUp(g, q, c, x);
      }
    }
  }

  lemma Trichotomy(a: Cell, b: Cell)
    ensures a == b || Before(a, b) || Before(b, a)
  {
  }

  /**
    mqd_symmetrically_map_cu_mask. Bit b of an engine's mask ends up set exactly when the
    cell it belongs to is active, its rank is within the mask (the very first cell always
    is), and the mask bit of that rank is set; on a device with too many engines or arrays
    nothing is written.
   */
  method MapCuMask(g: Geometry, q: Request, cusPerNode: nat, seMask: array<set<nat>>)
    requires g.Valid() && q.xccs > 0 && seMask.Length == g.ses
    modifies seMask
    ensures g.ses > MAX_SE || g.shs > MAX_SH ==> seMask[..] == old(seMask[..])
    ensures g.ses <= MAX_SE && g.shs <= MAX_SH ==>
      Dealt(g, q.(count := if q.count > cusPerNode then cusPerNode else q.count), seMask[..])
  {
    var q1 := q.(count := if q.count > cusPerNode then cusPerNode else q.count);
    if g.ses > MAX_SE || g.shs > MAX_SH { return; }
    for e := 0 to g.ses
      invariant forall k :: 0 <= k < e ==> seMask[k] == {}
    {
      seMask[e] := {};
    }
    Deal(g, q1, seMask);
  }

  /** The three nested loops, with their return from the middle. */
  method Deal(g: Geometry, q: Request, seMask: array<set<nat>>)
    requires g.Valid() && q.xccs > 0 && seMask.Length == g.ses && forall e :: 0 <= e < g.ses ==> seMask[e] == {}
    modifies seMask
    ensures Dealt(g, q, seMask[..])
  {
    hide Rank, Active;
    var i := q.inst;
    var cu := 0;
    NothingBefore(g, q, seMask[..]);
    while cu < CU_SLOTS
      invariant 0 <= cu && cu % g.CuInc() == 0
      invariant DealtUpTo(g, q, seMask[..], Cell(cu, 0, 0)) && IndexAt(g, q, Cell(cu, 0, 0), i)
      decreases CU_SLOTS - cu
    {
      for sh := 0 to g.shs
        invariant DealtUpTo(g, q, seMask[..], Cell(cu, sh, 0)) && IndexAt(g, q, Cell(cu, sh, 0), i)
      {
        for se := 0 to g.ses
          invariant DealtUpTo(g, q, seMask[..], Cell(cu, sh, se)) && IndexAt(g, q, Cell(cu, sh, se), i)
        {
          var stop;
          i, stop := DealCell(g, q, seMask, Cell(cu, sh, se), i);
          if stop { return; }
        }
        RowEnds(g, q, seMask[..], cu, sh);
      }
      PlaneEnds(g, q, seMask[..], cu);
      cu := cu + g.CuInc();
    }
    AllDealt(g, q, seMask[..], cu);
  }

  /** The body of the innermost loop; `stop` is its return. */
  method DealCell(g: Geometry, q: Request, seMask: array<set<nat>>, c: Cell, i0: nat) returns (i: nat, stop: bool)
    requires g.Valid() && q.xccs > 0 && seMask.Length == g.ses
    requires c.cu < CU_SLOTS && c.cu % g.CuInc() == 0 && c.sh < g.shs && c.se < g.ses
    requires DealtUpTo(g, q, seMask[..], c) && IndexAt(g, q, c, i0)
    modifies seMask
    ensures stop ==> Dealt(g, q, seMask[..])
    ensures !stop ==>
      var d := c.(se := c.se + 1);
      DealtUpTo(g, q, seMask[..], d) && IndexAt(g, q, d, i)
  {
    hide Rank, DealtUpTo, Dealt;
    ghost var d := c.(se := c.se + 1);
    NextSe(g, c);
    RankNext(g, c, d);
    i, stop := i0, false;
    if g.CuPerSh(c.se, c.sh) > c.cu {
      assert Active(g, c);
      DealOne(g, q, seMask[..], c, d);
      MulStep(Rank(g, c), Inc(g, q));
      if MaskBit(g, q.mask, i) {
        seMask[c.se] := seMask[c.se] + CellBits(g, c);
      }
      i := i + Inc(g, q);
      if i >= q.count {
        stop := true;
        DealRest(g, q, seMask[..], c, d);
      }
    } else {
      DealSkip(g, q, seMask[..], c, d);
    }
  }

  lemma NextSe(g: Geometry, c: Cell)
    requires g.Valid()
    ensures Follows(g, c, c.(se := c.se + 1))
  {
  }

  lemma NothingBefore(g: Geometry, q: Request, se: seq<set<nat>>)
    requires g.Valid() && |se| == g.ses && forall e :: 0 <= e < g.ses ==> se[e] == {}
    ensures DealtUpTo(g, q, se, Cell(0, 0, 0)) && Rank(g, Cell(0, 0, 0)) == 0
  {
    RankEmpty(g, Cell(0, 0, 0));
  }

  lemma RowEnds(g: Geometry, q: Request, se: seq<set<nat>>, cu: nat, sh: nat)
    requires g.Valid() && |se| == g.ses && DealtUpTo(g, q, se, Cell(cu, sh, g.ses))
    ensures DealtUpTo(g, q, se, Cell(cu, sh + 1, 0))
    ensures Rank(g, Cell(cu, sh + 1, 0)) == Rank(g, Cell(cu, sh, g.ses))
  {
    RankSame(g, Cell(cu, sh, g.ses), Cell(cu, sh + 1, 0));
    DealSkip(g, q, se, Cell(cu, sh, g.ses), Cell(cu, sh + 1, 0));
  }

  lemma PlaneEnds(g: Geometry, q: Request, se: seq<set<nat>>, cu: nat)
    requires g.Valid() && |se| == g.ses && cu % g.CuInc() == 0 && DealtUpTo(g, q, se, Cell(cu, g.shs, 0))
    ensures DealtUpTo(g, q, se, Cell(cu + g.CuInc(), 0, 0))
    ensures Rank(g, Cell(cu + g.CuInc(), 0, 0)) == Rank(g, Cell(cu, g.shs, 0))
  {
    RankSame(g, Cell(cu, g.shs, 0), Cell(cu + g.CuInc(), 0, 0));
    DealSkip(g, q, se, Cell(cu, g.shs, 0), Cell(cu + g.CuInc(), 0, 0));
  }

  lemma AllDealt(g: Geometry, q: Request, se: seq<set<nat>>, cu: nat)
    requires g.Valid() && |se| == g.ses && cu >= CU_SLOTS && DealtUpTo(g, q, se, Cell(cu, 0, 0))
    ensures Dealt(g, q, se)
  {
  }

  // ----- what that means for the masks as the device sees them

  /** The compute unit of an engine mask's bit: 16 to an array, in pairs on WGP parts. */
  function UnitOf(wgp: bool, b: nat): nat { if wgp then b % 16 / 2 * 2 else b % 16 }

  /** One of the user's bits that the rank may read: the bit itself or, on WGP parts, its neighbour in the same word. */
  predicate UserWants(wgp: bool, mask: set<nat>, i: nat) {
    exists m <- mask :: m / 32 == i / 32 && i <= m <= i + (if wgp then 1 else 0)
  }

  lemma MaskBitMeans(g: Geometry, mask: set<nat>, i: nat)
    ensures MaskBit(g, mask, i) <==> UserWants(g.wgp, mask, i)
  {
    if i in mask {
      assert i / 32 == i / 32;
    } else if g.wgp && i % 32 != 31 && i + 1 in mask {
      assert (i + 1) / 32 == i / 32;
    }
  }

  /** An existing array whose bitmap row, for the later four engines the one behind the first four's, is long enough. */
  predicate Populated(g: Geometry, e: nat, sh: nat, unit: nat) {
    && sh < g.shs
    && var row := if e < 4 then sh else sh + g.shMul;
       e % 4 < |g.bitmap| && row < |g.bitmap[e % 4]| && |g.bitmap[e % 4][row]| > unit
  }

  lemma CellMeans(g: Geometry, e: nat, b: nat)
    ensures CellOf(g, e, b) == Cell(UnitOf(g.wgp, b), b / 16, e)
  {
  }

  lemma ActiveMeans(g: Geometry, e: nat, b: nat)
    requires g.Valid() && e < g.ses <= MAX_SE
    ensures Active(g, CellOf(g, e, b)) <==> Populated(g, e, b / 16, UnitOf(g.wgp, b))
  {
    CellMeans(g, e, b);
    assert e / 4 == if e < 4 then 0 else 1;
  }

  /**
    The result in the device's own terms: a bit is set if and only if its array has more
    active units than the bit's unit, the rank is within the count, and the user wants it.
   */
  lemma DealtMeans(g: Geometry, q: Request, se: seq<set<nat>>, e: nat, b: nat)
    requires g.Valid() && |se| == g.ses <= MAX_SE && Dealt(g, q, se) && e < g.ses
    ensures var c := Cell(UnitOf(g.wgp, b), b / 16, e);
      var i := q.inst + Rank(g, c) * ((if g.wgp then 2 else 1) * q.xccs);
      b in se[e] <==> Populated(g, e, c.sh, c.cu) && (i < q.count || Rank(g, c) == 0) && UserWants(g.wgp, q.mask, i)
  {
    hide Rank, Active, MaskBit, CellOf, UnitOf, Populated, UserWants;
    CellMeans(g, e, b);
    ActiveMeans(g, e, b);
    MaskBitMeans(g, q.mask, q.inst + Rank(g, CellOf(g, e, b)) * Inc(g, q));
  }

  /** On WGP parts the two units of a pair are enabled together. */
  lemma PairsTogether(g: Geometry, q: Request, se: seq<set<nat>>, e: nat, k: nat)
    requires g.Valid() && |se| == g.ses && Dealt(g, q, se) && e < g.ses && g.wgp
    ensures 2 * k in se[e] <==> 2 * k + 1 in se[e]
  {
    hide Rank, Enabled, CellOf;
    SameCell(g, e, k);
  }

  lemma SameCell(g: Geometry, e: nat, k: nat)
    requires g.wgp
    ensures CellOf(g, e, 2 * k) == CellOf(g, e, 2 * k + 1)
  {
  }

  // ----- several dies

  /** The mask bits die `inst` of `xccs` may read. */
  predicate Reads(g: Geometry, xccs: nat, inst: nat, r: nat, b: nat) {
    var i := inst + r * (g.CuInc() * xccs);
    b == i || (g.wgp && i % 32 != 31 && b == i + 1)
  }

  /** Different dies read different mask bits exactly on parts without WGPs, or with one die. */
  lemma DiesDisjoint(g: Geometry, xccs: nat)
    requires xccs > 0
    ensures (forall a: nat, b: nat, r: nat, s: nat, bit: nat ::
               a < xccs && b < xccs && Reads(g, xccs, a, r, bit) && Reads(g, xccs, b, s, bit) ==> a == b)
        <==> (!g.wgp || xccs == 1)
  {
    if !g.wgp {
      forall a: nat, b: nat, r: nat, s: nat, bit: nat
        | a < xccs && b < xccs && Reads(g, xccs, a, r, bit) && Reads(g, xccs, b, s, bit) ensures a == b
      {
        ModUnique(r, a, xccs);
        ModUnique(s, b, xccs);
      }
    } else if xccs > 1 {
      assert Reads(g, xccs, 0, 0, 1) && Reads(g, xccs, 1, 0, 1);
    }
  }
}
