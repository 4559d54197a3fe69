/** Adding up the statistics of pools: classes of equal allocation size are merged, whatever their
    ids, and the others get new ids. */
module PoolStats {
  import opened Basics

  const MAX_CLASSES := 128

  /** The counters of an allocation class that are summed. */
  datatype Counters = Counters(
    allocAttempts: nat, evictionAttempts: nat, allocFailures: nat, fragmentation: nat, hits: nat,
    chainedEvictions: nat, regularEvictions: nat,
    items: nat, hotAccesses: nat, coldAccesses: nat, warmAccesses: nat,
    usedSlabs: nat, freeSlabs: nat, freeAllocs: nat, activeAllocs: nat)

  const ZERO := Counters(0, 0, 0, 0, 0, 0, 0, 0, 0, 0, 0, 0, 0, 0, 0)

  function Plus(a: Counters, b: Counters): Counters {
    Counters(
      a.allocAttempts + b.allocAttempts, a.evictionAttempts + b.evictionAttempts, a.allocFailures + b.allocFailures,
      a.fragmentation + b.fragmentation, a.hits + b.hits,
      a.chainedEvictions + b.chainedEvictions, a.regularEvictions + b.regularEvictions,
      a.items + b.items, a.hotAccesses + b.hotAccesses, a.coldAccesses + b.coldAccesses,
      a.warmAccesses + b.warmAccesses,
      a.usedSlabs + b.usedSlabs, a.freeSlabs + b.freeSlabs, a.freeAllocs + b.freeAllocs,
      a.activeAllocs + b.activeAllocs)
  }

  lemma PlusLaws(a: Counters, b: Counters, c: Counters)
    ensures Plus(a, Plus(b, c)) == Plus(Plus(a, b), c) && Plus(a, b) == Plus(b, a) && Plus(a, ZERO) == a
  {
  }

  datatype ClassStat = ClassStat(allocSize: nat, counters: Counters)

  type Classes = map<nat, ClassStat>

  /** Class ids run from 0. */
  ghost predicate Dense(m: Classes) {
    forall i :: i in m <==> 0 <= i < |m|
  }

  ghost predicate DistinctSizes(m: Classes) {
    forall i, j :: i in m && j in m && m[i].allocSize == m[j].allocSize ==> i == j
  }

  function SizesOf(m: Classes): set<nat> {
    set i | i in m :: m[i].allocSize
  }

  // ---------- totals ----------

  /** What a class adds to the total of an allocation size, or to the total of all. */
  function Part(s: ClassStat, size: Option<nat>): Counters {
    if size.None? || s.allocSize == size.value then s.counters else ZERO
  }

  function TotalUpTo(m: Classes, n: nat, size: Option<nat>): Counters
    requires forall i :: 0 <= i < n ==> i in m
  {
    if n == 0 then ZERO else Plus(TotalUpTo(m, n - 1, size), Part(m[n - 1], size))
  }

  function Total(m: Classes, size: Option<nat>): Counters {
    if forall i :: 0 <= i < |m| ==> i in m then TotalUpTo(m, |m|, size) else ZERO
  }

  lemma {:induction false} TotalSame(m: Classes, m': Classes, n: nat, size: Option<nat>)
    requires forall i :: 0 <= i < n ==> i in m && i in m' && m[i] == m'[i]
    ensures TotalUpTo(m, n, size) == TotalUpTo(m', n, size)
  {
    if n > 0 {
      TotalSame(m, m', n - 1, size);
    }
  }

  function Merged(m: Classes, id: nat, c: Counters): Classes
    requires id in m
  {
    m[id := m[id].(counters := Plus(m[id].counters, c))]
  }

  lemma {:induction false} TotalMerged(m: Classes, id: nat, s: ClassStat, n: nat, size: Option<nat>)
    requires id in m && m[id].allocSize == s.allocSize && (forall i :: 0 <= i < n ==> i in m)
    ensures TotalUpTo(Merged(m, id, s.counters), n, size) ==
            if id < n then Plus(TotalUpTo(m, n, size), Part(s, size)) else TotalUpTo(m, n, size)
  {
    hide Plus;
    var m' := Merged(m, id, s.counters);
    if n > 0 {
      TotalMerged(m, id, s, n - 1, size);
      if id == n - 1 {
        PlusLaws(TotalUpTo(m, n - 1, size), Part(m[n - 1], size), Part(s, size));
        PlusLaws(ZERO, ZERO, ZERO);
      } else {
        PlusLaws(TotalUpTo(m, n - 1, size), Part(s, size), Part(m[n - 1], size));
        PlusLaws(TotalUpTo(m, n - 1, size), Part(m[n - 1], size), Part(s, size));
        PlusLaws(Part(s, size), Part(m[n - 1], size), ZERO);
      }
    }
  }

  /** Adding one class adds exactly its counters to its size, and to the grand total. */
  ghost predicate AddsClass(m: Classes, m': Classes, s: ClassStat) {
    && Dense(m') && (DistinctSizes(m) ==> DistinctSizes(m'))
    && SizesOf(m') == SizesOf(m) + {s.allocSize}
    && (forall size :: Total(m', size) == Plus(Total(m, size), Part(s, size)))
  }

  lemma MergeAdds(m: Classes, id: nat, s: ClassStat)
    requires Dense(m) && id in m && m[id].allocSize == s.allocSize
    ensures AddsClass(m, Merged(m, id, s.counters), s)
  {
    hide Plus, TotalUpTo;
    var m' := Merged(m, id, s.counters);
    assert m'.Keys == m.Keys && |m'| == |m'.Keys| && |m| == |m.Keys|;
    forall size ensures Total(m', size) == Plus(Total(m, size), Part(s, size)) {
      TotalMerged(m, id, s, |m|, size);
    }
    assert forall i :: i in m ==> m'[i].allocSize == m[i].allocSize;
    assert SizesOf(m') == SizesOf(m);
    assert s.allocSize in SizesOf(m);
  }

  lemma AppendDense(m: Classes, s: ClassStat)
    requires Dense(m)
    ensures |m| !in m && Dense(m[|m| := s]) && |m[|m| := s]| == |m| + 1
  {
    KeysGrow(m, |m|, s);
  }

  lemma KeysGrow(m: Classes, id: nat, s: ClassStat)
    requires id !in m
    ensures |m[id := s]| == |m| + 1
  {
    var m' := m[id := s];
    assert m'.Keys == m.Keys + {id};
    assert |m'| == |m'.Keys| && |m| == |m.Keys|;
  }

  lemma AppendSizes(m: Classes, s: ClassStat)
    requires |m| !in m
    ensures SizesOf(m[|m| := s]) == SizesOf(m) + {s.allocSize}
    ensures DistinctSizes(m) && s.allocSize !in SizesOf(m) ==> DistinctSizes(m[|m| := s])
  {
    var m' := m[|m| := s];
    assert forall i :: i in m ==> m[i].allocSize in SizesOf(m) && m'[i] == m[i];
    forall x ensures x in SizesOf(m') <==> x in SizesOf(m) || x == s.allocSize {
      if x in SizesOf(m) {
        var i :| i in m && m[i].allocSize == x;
        assert i in m' && m'[i].allocSize == x;
      }
      if x == s.allocSize {
        assert m'[|m|].allocSize == x;
      }
    }
  }

  lemma AppendTotal(m: Classes, s: ClassStat, size: Option<nat>)
    requires Dense(m)
    ensures Total(m[|m| := s], size) == Plus(Total(m, size), Part(s, size))
  {
    hide Plus;
    AppendDense(m, s);
    TotalSame(m, m[|m| := s], |m|, size);
  }

  lemma AppendAdds(m: Classes, s: ClassStat)
    requires Dense(m) && s.allocSize !in SizesOf(m)
    ensures AddsClass(m, m[|m| := s], s)
  {
    hide Plus, Total, SizesOf, DistinctSizes, Part;
    AppendDense(m, s);
    AppendSizes(m, s);
    forall size ensures Total(m[|m| := s], size) == Plus(Total(m, size), Part(s, size)) {
      AppendTotal(m, s, size);
    }
  }

  // ---------- adding a pool ----------

  /** The part of a pool's statistics that is simply summed. */
  datatype Header = Header(
    poolSize: nat, usableSize: nat, advisedSize: nat,
    freeSlabs: nat, unallocatedSlabs: nat, resizes: nat, rebalances: nat, advises: nat, getHits: nat)

  function HeaderPlus(a: Header, b: Header): Header {
    Header(a.poolSize + b.poolSize, a.usableSize + b.usableSize, a.advisedSize + b.advisedSize,
           a.freeSlabs + b.freeSlabs, a.unallocatedSlabs + b.unallocatedSlabs, a.resizes + b.resizes,
           a.rebalances + b.rebalances, a.advises + b.advises, a.getHits + b.getHits)
  }

  datatype HeaderField =
    | PoolSize | UsableSize | AdvisedSize | FreeSlabs | UnallocatedSlabs | Resizes | Rebalances | Advises | GetHits

  function Entry(h: Header, f: HeaderField): nat {
    match f
    case PoolSize => h.poolSize
    case UsableSize => h.usableSize
    case AdvisedSize => h.advisedSize
    case FreeSlabs => h.freeSlabs
    case UnallocatedSlabs => h.unallocatedSlabs
    case Resizes => h.resizes
    case Rebalances => h.rebalances
    case Advises => h.advises
    case GetHits => h.getHits
  }

  lemma HeaderAdds(a: Header, b: Header, f: HeaderField)
    ensures Entry(HeaderPlus(a, b), f) == Entry(a, f) + Entry(b, f)
  {
  }

  datatype Pool = Pool(classes: Classes, header: Header)

  ghost predicate ValidPool(p: Pool) {
    Dense(p.classes) && DistinctSizes(p.classes)
  }

  predicate CanAggregate(a: Pool, b: Pool) {
    |SizesOf(a.classes) + SizesOf(b.classes)| <= MAX_CLASSES
  }

  /** `c` is the sum of `a` and `b`: per allocation size, over all, and in the header. */
  ghost predicate IsSum(a: Pool, b: Pool, c: Pool) {
    && ValidPool(c)
    && SizesOf(c.classes) == SizesOf(a.classes) + SizesOf(b.classes)
    && (forall size :: Total(c.classes, size) == Plus(Total(a.classes, size), Total(b.classes, size)))
    && (forall f :: Entry(c.header, f) == Entry(a.header, f) + Entry(b.header, f))
  }

  class Aggregate {
    var pool: Pool

    constructor (p: Pool)
      ensures pool == p
    {
      pool := p;
    }

    /** The lowest id from the number of classes less one that is not taken. */
    method NewClassId() returns (id: nat)
      requires Dense(pool.classes)
      ensures id == |pool.classes|
    {
      id := if |pool.classes| == 0 then 0 else |pool.classes| - 1;
      while id in pool.classes
        invariant id <= |pool.classes|
        decreases |pool.classes| - id
      {
        id := id + 1;
      }
    }

    method AddClass(s: ClassStat)
      requires Dense(pool.classes)
      modifies this
      ensures AddsClass(old(pool).classes, pool.classes, s) && pool.header == old(pool).header
    {
      hide Plus, Total, DistinctSizes, Dense;
      if id :| id in pool.classes && pool.classes[id].allocSize == s.allocSize {
        MergeAdds(pool.classes, id, s);
        pool := pool.(classes := Merged(pool.classes, id, s.counters));
      } else {
        AppendAdds(pool.classes, s);
        var id := NewClassId();
        pool := pool.(classes := pool.classes[id := s]);
      }
    }

    /** Adds another pool, unless there would be too many allocation sizes. */
    method AddPool(other: Pool) returns (ok: bool)
      requires ValidPool(pool) && ValidPool(other)
      modifies this
      ensures ok <==> |SizesOf(old(pool).classes) + SizesOf(other.classes)| <= 128
      ensures ok ==> IsSum(old(pool), other, pool)
      ensures !ok ==> pool == old(pool)
    {
      hide HeaderPlus, Entry, SizesOf, Dense, DistinctSizes, PartialSum, AddsClass;
      ghost var before := pool;
      ok := CanAggregate(pool, other);
      if ok {
        var header := HeaderPlus(pool.header, other.header);
        NoClasses(before.classes, other.classes);
        for i := 0 to |other.classes|
          invariant PartialSum(before.classes, pool.classes, other.classes, i) && pool.header == before.header
        {
          ghost var m := pool.classes;
          PartialDense(before.classes, m, other.classes, i);
          AddClass(other.classes[i]);
          NextClass(before.classes, m, pool.classes, other.classes, i);
        }
        AllClasses(before.classes, pool.classes, other.classes);
        forall f ensures Entry(header, f) == Entry(before.header, f) + Entry(other.header, f) {
          HeaderAdds(before.header, other.header, f);
        }
        pool := pool.(header := header);
      }
    }
  }

  /** `m` is `a` with the first `i` classes of `b` added. */
  ghost predicate PartialSum(a: Classes, m: Classes, b: Classes, i: nat) {
    && Dense(m) && DistinctSizes(m) && Dense(b) && i <= |b|
    && SizesOf(m) == SizesOf(a) + SizesUpTo(b, i)
    && (forall size :: Total(m, size) == Plus(Total(a, size), TotalUpTo(b, i, size)))
  }

  function SizesUpTo(m: Classes, n: nat): set<nat> {
    set i | 0 <= i < n && i in m :: m[i].allocSize
  }

  lemma NoClasses(a: Classes, b: Classes)
    requires Dense(a) && DistinctSizes(a) && Dense(b)
    ensures PartialSum(a, a, b, 0)
  {
    forall size ensures Total(a, size) == Plus(Total(a, size), TotalUpTo(b, 0, size)) {
      PlusLaws(Total(a, size), ZERO, ZERO);
    }
    assert SizesUpTo(b, 0) == {};
  }

  lemma PartialDense(a: Classes, m: Classes, b: Classes, i: nat)
    requires PartialSum(a, m, b, i)
    ensures Dense(m) && (i < |b| ==> i in b)
  {
  }

  lemma NextClass(a: Classes, m: Classes, m': Classes, b: Classes, i: nat)
    requires PartialSum(a, m, b, i) && i < |b| && i in b && AddsClass(m, m', b[i])
    ensures PartialSum(a, m', b, i + 1)
  {
    hide Plus, Total, Part, SizesUpTo, DistinctSizes, SizesOf;
    SizesNext(b, i);
    forall size ensures Total(m', size) == Plus(Total(a, size), TotalUpTo(b, i + 1, size)) {
      PlusLaws(Total(a, size), TotalUpTo(b, i, size), Part(b[i], size));
    }
  }

  lemma AllClasses(a: Classes, m: Classes, b: Classes)
    requires PartialSum(a, m, b, |b|)
    ensures Dense(m) && DistinctSizes(m) && SizesOf(m) == SizesOf(a) + SizesOf(b)
    ensures forall size :: Total(m, size) == Plus(Total(a, size), Total(b, size))
  {
    assert SizesUpTo(b, |b|) == SizesOf(b);
  }

  lemma SizesNext(m: Classes, i: nat)
    requires i in m
    ensures SizesUpTo(m, i + 1) == SizesUpTo(m, i) + {m[i].allocSize}
  {
    forall x ensures x in SizesUpTo(m, i + 1) <==> x in SizesUpTo(m, i) || x == m[i].allocSize {
      if x in SizesUpTo(m, i) {
        var j :| 0 <= j < i && j in m && m[j].allocSize == x;
        assert 0 <= j < i + 1;
      }
      if x == m[i].allocSize {
        assert 0 <= i < i + 1;
      }
    }
  }

  // ---------- the summing accessors ----------

  /** The loop behind the accessors, over all counters at once. */
  method SumCounters(m: Classes) returns (sum: Counters)
    requires Dense(m)
    ensures sum == Total(m, None)
  {
    sum := ZERO;
    for i := 0 to |m|
      invariant sum == TotalUpTo(m, i, None)
    {
      sum := Plus(sum, m[i].counters);
    }
  }

  function NumItems(p: Pool): nat { Total(p.classes, None).items }
  function NumEvictions(p: Pool): nat {
    Total(p.classes, None).chainedEvictions + Total(p.classes, None).regularEvictions
  }
  function NumAllocAttempts(p: Pool): nat { Total(p.classes, None).allocAttempts }
  function NumAllocFailures(p: Pool): nat { Total(p.classes, None).allocFailures }
  function TotalFragmentation(p: Pool): nat { Total(p.classes, None).fragmentation }
  function NumActiveAllocs(p: Pool): nat { Total(p.classes, None).activeAllocs }

  datatype Field =
    | AllocAttempts | EvictionAttempts | AllocFailures | Fragmentation | Hits | ChainedEvictions | RegularEvictions
    | Items | HotAccesses | ColdAccesses | WarmAccesses | UsedSlabs | FreeSlabCount | FreeAllocs | ActiveAllocs

  function Amount(c: Counters, f: Field): nat {
    match f
    case AllocAttempts => c.allocAttempts
    case EvictionAttempts => c.evictionAttempts
    case AllocFailures => c.allocFailures
    case Fragmentation => c.fragmentation
    case Hits => c.hits
    case ChainedEvictions => c.chainedEvictions
    case RegularEvictions => c.regularEvictions
    case Items => c.items
    case HotAccesses => c.hotAccesses
    case ColdAccesses => c.coldAccesses
    case WarmAccesses => c.warmAccesses
    case UsedSlabs => c.usedSlabs
    case FreeSlabCount => c.freeSlabs
    case FreeAllocs => c.freeAllocs
    case ActiveAllocs => c.activeAllocs
  }

  /** One counter added up over the classes of an allocation size, or over all. */
  function AmountUpTo(m: Classes, n: nat, f: Field, size: Option<nat>): nat
    requires forall i :: 0 <= i < n ==> i in m
  {
    if n == 0 then 0
    else
      AmountUpTo(m, n - 1, f, size)
      + if size in {None, Some(m[n - 1].allocSize)} then Amount(m[n - 1].counters, f) else 0
  }

  lemma PlusAmount(a: Counters, b: Counters, f: Field)
    ensures Amount(Plus(a, b), f) == Amount(a, f) + Amount(b, f) && Amount(ZERO, f) == 0
  {
  }

  /** Every counter of a total is the sum of that counter. */
  lemma {:induction false} TotalAmount(m: Classes, n: nat, f: Field, size: Option<nat>)
    requires forall i :: 0 <= i < n ==> i in m
    ensures Amount(TotalUpTo(m, n, size), f) == AmountUpTo(m, n, f, size)
  {
    hide Plus, Amount;
    PlusAmount(ZERO, ZERO, f);
    if n > 0 {
      TotalAmount(m, n - 1, f, size);
      PlusAmount(TotalUpTo(m, n - 1, size), Part(m[n - 1], size), f);
    }
  }

  /** The accessors sum the counter they are named after, over all classes. */
  lemma AccessorsSum(p: Pool)
    requires Dense(p.classes)
    ensures var m, n := p.classes, |p.classes|;
            && NumItems(p) == AmountUpTo(m, n, Items, None)
            && NumEvictions(p) == AmountUpTo(m, n, ChainedEvictions, None) + AmountUpTo(m, n, RegularEvictions, None)
            && NumAllocAttempts(p) == AmountUpTo(m, n, AllocAttempts, None)
            && NumAllocFailures(p) == AmountUpTo(m, n, AllocFailures, None)
            && TotalFragmentation(p) == AmountUpTo(m, n, Fragmentation, None)
            && NumActiveAllocs(p) == AmountUpTo(m, n, ActiveAllocs, None)
  {
    hide TotalUpTo, AmountUpTo;
    var m, n := p.classes, |p.classes|;
    TotalAmount(m, n, Items, None);
    TotalAmount(m, n, ChainedEvictions, None);
    TotalAmount(m, n, RegularEvictions, None);
    TotalAmount(m, n, AllocAttempts, None);
    TotalAmount(m, n, AllocFailures, None);
    TotalAmount(m, n, Fragmentation, None);
    TotalAmount(m, n, ActiveAllocs, None);
  }

  lemma AccessorsAdd(a: Pool, b: Pool, c: Pool)
    requires IsSum(a, b, c)
    ensures NumItems(c) == NumItems(a) + NumItems(b)
    ensures NumEvictions(c) == NumEvictions(a) + NumEvictions(b)
    ensures NumAllocAttempts(c) == NumAllocAttempts(a) + NumAllocAttempts(b)
    ensures NumAllocFailures(c) == NumAllocFailures(a) + NumAllocFailures(b)
    ensures TotalFragmentation(c) == TotalFragmentation(a) + TotalFragmentation(b)
    ensures NumActiveAllocs(c) == NumActiveAllocs(a) + NumActiveAllocs(b)
  {
    assert Total(c.classes, None) == Plus(Total(a.classes, None), Total(b.classes, None));
  }

  // ---------- all pools ----------

  function AllSizes(pools: seq<Pool>): set<nat> {
    if pools == [] then {} else AllSizes(pools[..|pools| - 1]) + SizesOf(pools[|pools| - 1].classes)
  }

  /** Whether the pools can be added up; there has to be something to add. */
  predicate CanAggregatePoolStats(pools: seq<Pool>) {
    |pools| >= 2 && |AllSizes(pools)| <= MAX_CLASSES
  }

  function SumOfTotals(pools: seq<Pool>, size: Option<nat>): Counters {
    if pools == [] then ZERO else Plus(SumOfTotals(pools[..|pools| - 1], size), Total(pools[|pools| - 1].classes, size))
  }

  function SumOfEntries(pools: seq<Pool>, f: HeaderField): nat {
    if pools == [] then 0 else SumOfEntries(pools[..|pools| - 1], f) + Entry(pools[|pools| - 1].header, f)
  }

  lemma {:induction false} SizesGrow(pools: seq<Pool>, n: nat)
    requires n <= |pools|
    ensures AllSizes(pools[..n]) <= AllSizes(pools)
    decreases |pools|
  {
    if n < |pools| {
      var k := |pools| - 1;
      SizesGrow(pools[..k], n);
      assert pools[..k][..n] == pools[..n];
    } else {
      assert pools[..n] == pools;
    }
  }

  lemma NextPool(pools: seq<Pool>, i: nat)
    requires i < |pools|
    ensures AllSizes(pools[..i + 1]) == AllSizes(pools[..i]) + SizesOf(pools[i].classes)
    ensures forall size ::
              SumOfTotals(pools[..i + 1], size) == Plus(SumOfTotals(pools[..i], size), Total(pools[i].classes, size))
    ensures forall f :: SumOfEntries(pools[..i + 1], f) == SumOfEntries(pools[..i], f) + Entry(pools[i].header, f)
  {
    assert pools[..i + 1][..i] == pools[..i];
  }

  /** Adds up all pools, starting from the first. When they can be aggregated no addition is refused,
      and every total is the sum of the pools' totals. */
  method AggregatePools(pools: seq<Pool>) returns (sum: Pool)
    requires CanAggregatePoolStats(pools) && (forall i :: 0 <= i < |pools| ==> ValidPool(pools[i]))
    ensures ValidPool(sum) && SizesOf(sum.classes) == AllSizes(pools)
    ensures forall size :: Total(sum.classes, size) == SumOfTotals(pools, size)
    ensures forall f :: Entry(sum.header, f) == SumOfEntries(pools, f)
  {
    hide Plus, Total, SizesOf, Entry, Dense, DistinctSizes, AllSizes, SumOfTotals, SumOfEntries;
    var total := new Aggregate(pools[0]);
    FirstPool(pools);
    for i := 1 to |pools|
      invariant ValidPool(total.pool) && SizesOf(total.pool.classes) == AllSizes(pools[..i])
      invariant forall size :: Total(total.pool.classes, size) == SumOfTotals(pools[..i], size)
      invariant forall f :: Entry(total.pool.header, f) == SumOfEntries(pools[..i], f)
    {
      NextPool(pools, i);
      SizesGrow(pools, i + 1);
      SubsetSize(AllSizes(pools[..i + 1]), AllSizes(pools));
      var ok := total.AddPool(pools[i]);
      assert ok;
    }
    assert pools[..|pools|] == pools;
    return total.pool;
  }

  lemma FirstPool(pools: seq<Pool>)
    requires pools != []
    ensures AllSizes(pools[..1]) == SizesOf(pools[0].classes)
    ensures forall size :: SumOfTotals(pools[..1], size) == Total(pools[0].classes, size)
    ensures forall f :: SumOfEntries(pools[..1], f) == Entry(pools[0].header, f)
  {
    hide Plus, Total, SizesOf, Entry;
    NextPool(pools, 0);
    NoPools(pools);
    forall size ensures SumOfTotals(pools[..1], size) == Total(pools[0].classes, size) {
      PlusLaws(ZERO, Total(pools[0].classes, size), ZERO);
      PlusLaws(Total(pools[0].classes, size), ZERO, ZERO);
    }
  }

  lemma NoPools(pools: seq<Pool>)
    ensures AllSizes(pools[..0]) == {} && forall size :: SumOfTotals(pools[..0], size) == ZERO
    ensures forall f :: SumOfEntries(pools[..0], f) == 0
  {
  }

  // ---------- the order of the pools ----------

  lemma {:induction false} TakeOut(pools: seq<Pool>, i: nat, size: Option<nat>)
    requires i < |pools|
    ensures SumOfTotals(pools, size) ==
            Plus(SumOfTotals(pools[..i] + pools[i + 1..], size), Total(pools[i].classes, size))
    decreases |pools|
  {
    hide Plus, Total;
    var k := |pools| - 1;
    var rest := pools[..i] + pools[i + 1..];
    if i == k {
      assert rest == pools[..k];
    } else {
      TakeOut(pools[..k], i, size);
      assert rest[..k - 1] == pools[..k][..i] + pools[..k][i + 1..];
      assert rest[k - 1] == pools[k];
      var a, x, y := SumOfTotals(rest[..k - 1], size), Total(pools[i].classes, size), Total(pools[k].classes, size);
      PlusLaws(a, x, y);
      PlusLaws(a, y, x);
      PlusLaws(x, y, ZERO);
    }
  }

  /** The totals do not depend on the order in which the pools are added up. */
  lemma {:induction false} OrderIrrelevant(pools: seq<Pool>, other: seq<Pool>, size: Option<nat>)
    requires multiset(pools) == multiset(other)
    ensures SumOfTotals(pools, size) == SumOfTotals(other, size)
    decreases |pools|
  {
    hide Plus, Total;
    if pools == [] {
      assert |multiset(other)| == 0;
      assert other == [];
    } else {
      var k := |pools| - 1;
      var last := pools[k];
      assert pools == pools[..k] + [last];
      assert last in multiset(other);
      var i :| 0 <= i < |other| && other[i] == last;
      assert other == other[..i] + [last] + other[i + 1..];
      var rest := other[..i] + other[i + 1..];
      assert multiset(rest) == multiset(other) - multiset{last};
      assert multiset(pools[..k]) == multiset(pools) - multiset{last};
      OrderIrrelevant(pools[..k], rest, size);
      TakeOut(other, i, size);
    }
  }
}
