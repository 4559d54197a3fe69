/** Chain operations step by step: while one is under way under the chain lock, others allocate, insert,
    acquire, drop, mark and evict. What it changes is kept apart as a part of the state: the parent's
    entry in the table and its flag, and the hooks, references and queue places of its children. */
module ChainSteps {
  import opened Basics
  import opened Chains
  import opened Slots

  /** One parent's part of the state; the counters are relative. */
  datatype Part = Part(
    head: Option<Item>, flag: bool, parents: int, children: int,
    next: map<Item, Item>, refs: map<Item, nat>, inMM: set<Item>)

  function Only<V>(m: map<Item, V>, mine: set<Item>): map<Item, V> {
    map y | y in m && y in mine :: m[y]
  }

  ghost function PartOf(a: State, p: Item, mine: set<Item>): Part {
    Part(if p in a.heads then Some(a.heads[p]) else None, p in a.hasChained, 0, 0,
         Only(a.next, mine), Only(a.refs, mine), a.inMM * mine)
  }

  function HeadsWith(heads: map<Item, Item>, p: Item, head: Option<Item>): map<Item, Item> {
    if head.Some? then heads[p := head.value] else heads - {p}
  }

  function FlagsWith(flags: set<Item>, p: Item, flag: bool): set<Item> {
    if flag then flags + {p} else flags - {p}
  }

  /** The state `a` with the part of `p` and its children put in. */
  ghost function Splice(a: State, p: Item, mine: set<Item>, d: Part): State {
    a.(heads := HeadsWith(a.heads, p, d.head), hasChained := FlagsWith(a.hasChained, p, d.flag),
       numParents := a.numParents + d.parents, numChildren := a.numChildren + d.children,
       next := (a.next - mine) + d.next, refs := (a.refs - mine) + d.refs, inMM := (a.inMM - mine) + d.inMM)
  }

  lemma SpliceNothing(a: State, p: Item, mine: set<Item>)
    ensures Splice(a, p, mine, PartOf(a, p, mine)) == a
  {
    var s := Splice(a, p, mine, PartOf(a, p, mine));
    assert s.heads == a.heads && s.hasChained == a.hasChained;
    assert s.next == a.next && s.refs == a.refs && s.inMM == a.inMM;
  }

  /** The children of `p`, linked or about to be, which nobody else can get at while the parent is held. */
  ghost predicate Owned(a: State, p: Item, mine: set<Item>) {
    && Held(a, p) && p in a.live && p !in a.parentOf && p !in mine
    && Members(ChainOf(a.chains, p)) <= mine
    && (forall y :: y in mine ==> y in a.live && y in a.parentOf && a.parentOf[y] == p)
  }

  predicate PartOk(d: Part, mine: set<Item>) {
    d.next.Keys <= mine && d.refs.Keys == mine && d.inMM <= mine && (forall y :: y in mine ==> d.refs[y] > 0)
  }

  /** What others can do without the chain lock. */
  predicate LockFree(op: Op) {
    op.Allocate? || op.AllocateChild? || op.Reuse? || op.Insert? || op.Unlink? || op.Acquire? || op.Drop? ||
    op.Mark? || op.Unmark? || op.Evict?
  }

  /** They have no handle on the children the operation is about. */
  predicate Spares(op: Op, mine: set<Item>) {
    (op.Acquire? || op.Drop? ==> op.x !in mine)
  }

  // ---------- operations of others commute with the splice ----------

  lemma SameMarkable(a: State, p: Item, mine: set<Item>, d: Part, c: Item)
    requires Valid(a) && Owned(a, p, mine) && PartOk(d, mine)
    ensures Markable(Splice(a, p, mine, d), c) ==> c !in mine && c != p && Markable(a, c)
  {
  }

  lemma HandlesCommute(a: State, x: Item, n: nat, p: Item, mine: set<Item>, d: Part)
    requires x !in mine && d.refs.Keys <= mine
    ensures WithHandles(Splice(a, p, mine, d), x, n) == Splice(WithHandles(a, x, n), p, mine, d)
  {
    assert ((a.refs - mine) + d.refs)[x := n] == (a.refs[x := n] - mine) + d.refs;
  }

  lemma InsertCommutes(a: State, x: Item, p: Item, mine: set<Item>, d: Part)
    requires x !in mine && d.inMM <= mine
    ensures Inserted(Splice(a, p, mine, d), x) == Splice(Inserted(a, x), p, mine, d)
    ensures Unlinked(Splice(a, p, mine, d), x) == Splice(Unlinked(a, x), p, mine, d)
  {
    assert (a.inMM - mine) + d.inMM + {x} == (a.inMM + {x} - mine) + d.inMM;
    assert (a.inMM - mine) + d.inMM - {x} == (a.inMM - {x} - mine) + d.inMM;
  }

  /** Seen from outside, an item that is not a child of `p` is as in `a`. */
  lemma SameOutside(a: State, p: Item, mine: set<Item>, d: Part, x: Item)
    requires PartOk(d, mine) && x !in mine
    ensures var s := Splice(a, p, mine, d);
            && Held(s, x) == Held(a, x) && Placed(s, x) == Placed(a, x) && Candidate(s, x) == Candidate(a, x)
            && (x in s.refs <==> x in a.refs) && (x in a.refs ==> s.refs[x] == a.refs[x])
            && (x in s.inMM <==> x in a.inMM)
            && Markable(s, x) == Markable(a, x)
  {
  }

  lemma MineKnown(a: State, p: Item, mine: set<Item>, x: Item)
    requires Valid(a) && Owned(a, p, mine) && x in mine
    ensures x in a.live && x in a.parentOf && x !in a.recycled && x !in a.chains
  {
  }

  lemma AllocateCommutes(a: State, x: Item, p: Item, mine: set<Item>, d: Part)
    requires Owned(a, p, mine) && PartOk(d, mine) && Enabled(Splice(a, p, mine, d), Allocate(x))
    ensures Enabled(a, Allocate(x))
    ensures Apply(Splice(a, p, mine, d), Allocate(x)) == Splice(Apply(a, Allocate(x)), p, mine, d)
  {
    PartKeys(d, mine);
    assert x !in mine;
    hide PartOk, Owned, WithHandles;
    HandlesCommute(a.(live := a.live + {x}), x, 1, p, mine, d);
  }

  lemma ChildCommutes(a: State, x: Item, q: Item, p: Item, mine: set<Item>, d: Part)
    requires Owned(a, p, mine) && PartOk(d, mine) && Enabled(Splice(a, p, mine, d), AllocateChild(x, q))
    ensures Enabled(a, AllocateChild(x, q))
    ensures Apply(Splice(a, p, mine, d), AllocateChild(x, q)) == Splice(Apply(a, AllocateChild(x, q)), p, mine, d)
  {
    PartKeys(d, mine);
    assert x !in mine;
    hide PartOk, Owned, WithHandles;
    HandlesCommute(a.(live := a.live + {x}, parentOf := a.parentOf[x := q]), x, 1, p, mine, d);
  }

  lemma ReuseCommutes(a: State, x: Item, p: Item, mine: set<Item>, d: Part)
    requires Valid(a) && Owned(a, p, mine) && PartOk(d, mine) && Enabled(Splice(a, p, mine, d), Reuse(x))
    ensures Enabled(a, Reuse(x)) && Apply(Splice(a, p, mine, d), Reuse(x)) == Splice(Apply(a, Reuse(x)), p, mine, d)
  {
    hide Valid, PartOk, Owned, WithHandles;
    PartKeys(d, mine);
    NewIsOther(a, x, p, mine);
    HandlesCommute(a.(recycled := a.recycled - {x}), x, 1, p, mine, d);
  }

  lemma PartKeys(d: Part, mine: set<Item>)
    requires PartOk(d, mine)
    ensures d.refs.Keys <= mine && d.inMM <= mine && d.next.Keys <= mine
  {
  }

  lemma NotMine(a: State, p: Item, mine: set<Item>, x: Item)
    requires Owned(a, p, mine) && x !in a.parentOf
    ensures x !in mine
  {
  }

  lemma LinkCommutes(a: State, op: Op, p: Item, mine: set<Item>, d: Part)
    requires Owned(a, p, mine) && PartOk(d, mine) && (op.Insert? || op.Unlink?)
    requires Enabled(Splice(a, p, mine, d), op)
    ensures Enabled(a, op) && Apply(Splice(a, p, mine, d), op) == Splice(Apply(a, op), p, mine, d)
  {
    hide Owned, PartOk, Held, Inserted, Unlinked;
    PartKeys(d, mine);
    NotMine(a, p, mine, op.x);
    SameOutside(a, p, mine, d, op.x);
    InsertCommutes(a, op.x, p, mine, d);
  }

  lemma MarkCommutes(a: State, op: Op, p: Item, mine: set<Item>, d: Part)
    requires Owned(a, p, mine) && PartOk(d, mine) && (op.Mark? || op.Unmark?)
    requires Enabled(Splice(a, p, mine, d), op)
    ensures Enabled(a, op) && Apply(Splice(a, p, mine, d), op) == Splice(Apply(a, op), p, mine, d)
  {
    hide Owned, PartOk, Markable;
    if op.Mark? {
      NotMine(a, p, mine, op.x);
      SameOutside(a, p, mine, d, op.x);
    }
  }

  lemma AcquireCommutes(a: State, op: Op, p: Item, mine: set<Item>, d: Part)
    requires Owned(a, p, mine) && PartOk(d, mine) && op.Acquire? && op.x !in mine
    requires Enabled(Splice(a, p, mine, d), op)
    ensures Enabled(a, op) && Apply(Splice(a, p, mine, d), op) == Splice(Apply(a, op), p, mine, d)
  {
    hide Owned, PartOk, Held, Placed, WithHandles;
    PartKeys(d, mine);
    SameOutside(a, p, mine, d, op.x);
    HandlesCommute(a, op.x, a.handles[op.x] + 1, p, mine, d);
  }

  // ---------- releases of others ----------

  lemma MinusCommutes<V>(m: map<Item, V>, chain: set<Item>, mine: set<Item>, n: map<Item, V>)
    requires chain !! mine && n.Keys <= mine
    ensures (m - mine) + n - chain == (m - chain - mine) + n
  {
  }

  lemma ZeroCommutes(m: map<Item, nat>, chain: set<Item>, mine: set<Item>, n: map<Item, nat>)
    requires chain !! mine && n.Keys <= mine
    ensures Zeroed((m - mine) + n, chain) == (Zeroed(m, chain) - mine) + n
  {
  }

  lemma QueueCommutes(q: set<Item>, chain: set<Item>, mine: set<Item>, n: set<Item>)
    requires chain !! mine && n <= mine
    ensures (q - mine) + n - chain == (q - chain - mine) + n
  {
  }

  lemma TableCommutes(heads: map<Item, Item>, flags: set<Item>, c: Item, p: Item, head: Option<Item>, flag: bool)
    requires c != p
    ensures HeadsWith(heads, p, head) - {c} == HeadsWith(heads - {c}, p, head)
    ensures FlagsWith(flags, p, flag) - {c} == FlagsWith(flags - {c}, p, flag)
  {
  }

  lemma SameFamily(a: State, s: State, c: Item, r: Option<Item>)
    requires s.chains == a.chains
    ensures Family(s, c) == Family(a, c) && Kept(s, c, r) == Kept(a, c, r)
  {
  }

  lemma ReleaseMaps(a: State, c: Item, r: Option<Item>, p: Item, mine: set<Item>, d: Part)
    requires PartOk(d, mine) && Members(ChainOf(a.chains, c)) !! mine
    ensures var t, u := WithReleased(Splice(a, p, mine, d), c, r), Splice(WithReleased(a, c, r), p, mine, d);
            t.next == u.next && t.refs == u.refs && t.inMM == u.inMM
  {
    hide Family, Kept, Members, ChainOf, Zeroed, PartOk;
    var chain := Members(ChainOf(a.chains, c));
    PartKeys(d, mine);
    MinusCommutes(a.next, chain, mine, d.next);
    ZeroCommutes(a.refs, chain, mine, d.refs);
    QueueCommutes(a.inMM, chain, mine, d.inMM);
  }

  lemma ReleaseTable(a: State, c: Item, r: Option<Item>, p: Item, mine: set<Item>, d: Part)
    requires c != p
    ensures var t, u := WithReleased(Splice(a, p, mine, d), c, r), Splice(WithReleased(a, c, r), p, mine, d);
            && t.heads == u.heads && t.hasChained == u.hasChained && t.numParents == u.numParents
            && t.numChildren == u.numChildren
            && t.live == u.live && t.recycled == u.recycled && t.parentOf == u.parentOf
  {
    hide Family, Kept, Members, ChainOf, Zeroed, HeadsWith, FlagsWith;
    SameFamily(a, Splice(a, p, mine, d), c, r);
    TableCommutes(a.heads, a.hasChained, c, p, d.head, d.flag);
  }

  lemma ReleaseCommutes(a: State, c: Item, r: Option<Item>, p: Item, mine: set<Item>, d: Part)
    requires PartOk(d, mine) && c != p && Members(ChainOf(a.chains, c)) !! mine
    ensures WithReleased(Splice(a, p, mine, d), c, r) == Splice(WithReleased(a, c, r), p, mine, d)
  {
    hide Family, Kept, Members, ChainOf, Zeroed, PartOk;
    ReleaseMaps(a, c, r, p, mine, d);
    ReleaseTable(a, c, r, p, mine, d);
  }

  lemma OtherFamily(a: State, p: Item, mine: set<Item>, c: Item)
    requires Valid(a) && Owned(a, p, mine) && c != p
    ensures Members(ChainOf(a.chains, c)) !! mine
  {
    if c in a.chains {
      ChainFacts(a, c);
    }
  }

  lemma SameDrained(a: State, p: Item, mine: set<Item>, d: Part, x: Item)
    requires PartOk(d, mine) && x !in mine
    ensures Drained(Splice(a, p, mine, d), x) == Drained(a, x)
  {
  }

  lemma StillHeld(s: State, x: Item, p: Item)
    requires Enabled(s, Drop(x)) && Held(Apply(s, Drop(x)), p) && Drained(WithHandles(s, x, s.handles[x] - 1), x)
    ensures x != p
  {
  }

  lemma SameChains(a: State, x: Item, n: nat)
    ensures WithHandles(a, x, n).chains == a.chains
  {
  }

  lemma DropCommutes(a: State, op: Op, p: Item, mine: set<Item>, d: Part)
    requires Valid(a) && Owned(a, p, mine) && PartOk(d, mine) && op.Drop? && op.x !in mine
    requires Enabled(Splice(a, p, mine, d), op) && Held(Apply(Splice(a, p, mine, d), op), p)
    ensures Enabled(a, op) && Apply(Splice(a, p, mine, d), op) == Splice(Apply(a, op), p, mine, d)
  {
    hide Valid, Owned, PartOk, WithReleased, WithHandles, Placed, Drained;
    var s, x := Splice(a, p, mine, d), op.x;
    PartKeys(d, mine);
    SameOutside(a, p, mine, d, x);
    var n := a.handles[x] - 1;
    HandlesCommute(a, x, n, p, mine, d);
    SameDrained(WithHandles(a, x, n), p, mine, d, x);
    if Drained(WithHandles(s, x, n), x) {
      StillHeld(s, x, p);
      OtherFamily(a, p, mine, x);
      SameChains(a, x, n);
      ReleaseCommutes(WithHandles(a, x, n), x, None, p, mine, d);
    }
  }

  lemma EvictCommutes(a: State, op: Op, p: Item, mine: set<Item>, d: Part)
    requires Valid(a) && Owned(a, p, mine) && PartOk(d, mine) && op.Evict?
    requires Enabled(Splice(a, p, mine, d), op)
    ensures Enabled(a, op) && Apply(Splice(a, p, mine, d), op) == Splice(Apply(a, op), p, mine, d)
  {
    hide Valid, PartOk, WithReleased, Markable, Unlinked;
    var s, x := Splice(a, p, mine, d), op.x;
    var c := Candidate(s, x);
    SameMarkable(a, p, mine, d, c);
    PartKeys(d, mine);
    assert x !in mine;
    SameOutside(a, p, mine, d, x);
    InsertCommutes(a, c, p, mine, d);
    OtherFamily(a, p, mine, c);
    UnlinkedChains(a, c);
    ReleaseCommutes(Unlinked(a, c), c, Some(x), p, mine, d);
  }

  lemma UnlinkedChains(a: State, c: Item)
    ensures Unlinked(a, c).chains == a.chains
  {
  }

  /** Whatever others do without the lock, they do to the state around the part. */
  lemma OthersCommute(a: State, op: Op, p: Item, mine: set<Item>, d: Part)
    requires Valid(a) && Owned(a, p, mine) && PartOk(d, mine) && LockFree(op) && Spares(op, mine)
    requires Enabled(Splice(a, p, mine, d), op) && Held(Apply(Splice(a, p, mine, d), op), p)
    ensures Enabled(a, op) && Apply(Splice(a, p, mine, d), op) == Splice(Apply(a, op), p, mine, d)
  {
    hide Valid, Owned, PartOk, Enabled, Apply, Splice;
    match op
    case Allocate(x) => AllocateCommutes(a, x, p, mine, d);
    case AllocateChild(x, q) => ChildCommutes(a, x, q, p, mine, d);
    case Reuse(x) => ReuseCommutes(a, x, p, mine, d);
    case Insert(_) => LinkCommutes(a, op, p, mine, d);
    case Unlink(_) => LinkCommutes(a, op, p, mine, d);
    case Mark(_) => MarkCommutes(a, op, p, mine, d);
    case Unmark(_) => MarkCommutes(a, op, p, mine, d);
    case Acquire(_) => AcquireCommutes(a, op, p, mine, d);
    case Drop(_) => DropCommutes(a, op, p, mine, d);
    case Evict(_) => EvictCommutes(a, op, p, mine, d);
  }

  // ---------- what others leave alone ----------

  ghost predicate SameChild(a: State, a': State, y: Item) {
    && (y in a.live ==> y in a'.live) && (y in a.kids <==> y in a'.kids)
    && (y in a.parentOf <==> y in a'.parentOf) && (y in a.parentOf ==> a'.parentOf[y] == a.parentOf[y])
    && (y in a.handles <==> y in a'.handles) && (y in a.handles ==> a'.handles[y] == a.handles[y])
  }

  ghost predicate Untouched(a: State, a': State, p: Item, mine: set<Item>) {
    && PartOf(a', p, mine) == PartOf(a, p, mine) && ChainOf(a'.chains, p) == ChainOf(a.chains, p)
    && (p in a.chains <==> p in a'.chains) && (p in a.parentOf <==> p in a'.parentOf) && (p in a.live ==> p in a'.live)
    && (forall y :: y in mine ==> SameChild(a, a', y))
  }

  lemma SamePart(a: State, a': State, p: Item, mine: set<Item>)
    requires a'.heads == a.heads && a'.hasChained == a.hasChained && a'.next == a.next
    requires forall y :: y in mine ==> (y in a.refs <==> y in a'.refs) && (y in a.refs ==> a'.refs[y] == a.refs[y])
    requires forall y :: y in mine ==> (y in a.inMM <==> y in a'.inMM)
    ensures PartOf(a', p, mine) == PartOf(a, p, mine)
  {
    var r, r' := Only(a.refs, mine), Only(a'.refs, mine);
    forall y: Item ensures (y in r <==> y in r') && (y in r ==> r[y] == r'[y]) {
      assert y in mine || y !in mine;
    }
    assert r == r';
    forall y: Item ensures y in a'.inMM * mine <==> y in a.inMM * mine {
      assert y in mine || y !in mine;
    }
    assert a'.inMM * mine == a.inMM * mine;
  }

  lemma ReleaseSpares(a: State, c: Item, r: Option<Item>, p: Item, mine: set<Item>)
    requires c != p && c !in mine && Members(ChainOf(a.chains, c)) !! mine && p !in Members(ChainOf(a.chains, c))
    ensures Untouched(a, WithReleased(a, c, r), p, mine)
  {
    hide Kept;
    var a' := WithReleased(a, c, r);
    assert Only(a'.next, mine) == Only(a.next, mine) && Only(a'.refs, mine) == Only(a.refs, mine);
    assert a'.inMM * mine == a.inMM * mine;
  }

  lemma SparedTwice(a: State, b: State, c: State, p: Item, mine: set<Item>)
    requires Untouched(a, b, p, mine) && Untouched(b, c, p, mine)
    ensures Untouched(a, c, p, mine)
  {
    hide PartOf, ChainOf;
    forall y | y in mine ensures SameChild(a, c, y) {
      assert SameChild(a, b, y) && SameChild(b, c, y);
    }
  }

  lemma HandlesSpare(a: State, x: Item, n: nat, p: Item, mine: set<Item>)
    requires x !in mine
    ensures Untouched(a, WithHandles(a, x, n), p, mine)
  {
    hide PartOf;
    SamePart(a, WithHandles(a, x, n), p, mine);
  }

  lemma LinksSpare(a: State, x: Item, p: Item, mine: set<Item>)
    requires x !in mine
    ensures Untouched(a, Unlinked(a, x), p, mine) && Untouched(a, Inserted(a, x), p, mine)
  {
    hide PartOf;
    SamePart(a, Unlinked(a, x), p, mine);
    SamePart(a, Inserted(a, x), p, mine);
  }

  lemma NewSpares(a: State, op: Op, p: Item, mine: set<Item>)
    requires Owned(a, p, mine) && Enabled(a, op) && (op.Allocate? || op.AllocateChild? || op.Reuse?) && op.x !in mine
    requires op.x != p
    ensures Untouched(a, Apply(a, op), p, mine)
  {
    hide PartOf;
    SamePart(a, Apply(a, op), p, mine);
  }

  lemma NewIsOther(a: State, x: Item, p: Item, mine: set<Item>)
    requires Valid(a) && Owned(a, p, mine) && (x !in a.live || x in a.recycled)
    ensures x !in mine && x != p
  {
  }

  lemma NotChildOf(a: State, p: Item, c: Item)
    requires Valid(a) && p !in a.parentOf
    ensures p !in Members(ChainOf(a.chains, c))
  {
    if c in a.chains {
      ChainFacts(a, c);
    }
  }

  lemma DropFacts(a: State, x: Item, p: Item, mine: set<Item>)
    requires Valid(a) && Owned(a, p, mine) && Enabled(a, Drop(x)) && Held(Apply(a, Drop(x)), p)
    requires Drained(WithHandles(a, x, a.handles[x] - 1), x)
    ensures x != p && Members(ChainOf(a.chains, x)) !! mine && p !in Members(ChainOf(a.chains, x))
  {
    StillHeld(a, x, p);
    hide Enabled, Apply, Drained, WithHandles;
    OtherFamily(a, p, mine, x);
    NotChildOf(a, p, x);
  }

  lemma DropSpares(a: State, x: Item, p: Item, mine: set<Item>)
    requires Valid(a) && Owned(a, p, mine) && Enabled(a, Drop(x)) && x !in mine && Held(Apply(a, Drop(x)), p)
    ensures Untouched(a, Apply(a, Drop(x)), p, mine)
  {
    hide Valid, Owned, WithReleased, WithHandles, Untouched, Drained, Placed, Members;
    var n := a.handles[x] - 1;
    var a1 := WithHandles(a, x, n);
    HandlesSpare(a, x, n, p, mine);
    SameChains(a, x, n);
    if Drained(a1, x) {
      DropFacts(a, x, p, mine);
      ReleaseSpares(a1, x, None, p, mine);
      SparedTwice(a, a1, WithReleased(a1, x, None), p, mine);
    }
  }

  lemma CandidateIsOther(a: State, x: Item, p: Item, mine: set<Item>)
    requires Valid(a) && Owned(a, p, mine) && Markable(a, Candidate(a, x))
    ensures Candidate(a, x) !in mine && Candidate(a, x) != p
  {
    var c := Candidate(a, x);
    if c in mine {
      KidLinked(a, c);
    }
  }

  lemma EvictSpares(a: State, x: Item, p: Item, mine: set<Item>)
    requires Valid(a) && Owned(a, p, mine) && Enabled(a, Evict(x))
    ensures Untouched(a, Apply(a, Evict(x)), p, mine)
  {
    hide Valid, WithReleased, Unlinked, Untouched, Candidate, Markable;
    var c := Candidate(a, x);
    CandidateIsOther(a, x, p, mine);
    OtherFamily(a, p, mine, c);
    NotChildOf(a, p, c);
    UnlinkedChains(a, c);
    LinksSpare(a, c, p, mine);
    ReleaseSpares(Unlinked(a, c), c, Some(x), p, mine);
    SparedTwice(a, Unlinked(a, c), WithReleased(Unlinked(a, c), c, Some(x)), p, mine);
  }

  lemma OthersSpare(a: State, op: Op, p: Item, mine: set<Item>)
    requires Valid(a) && Owned(a, p, mine) && LockFree(op) && Spares(op, mine) && Enabled(a, op)
    requires Held(Apply(a, op), p)
    ensures Untouched(a, Apply(a, op), p, mine) && Owned(Apply(a, op), p, mine)
  {
    hide Valid, Untouched, WithReleased, WithHandles, Inserted, Unlinked, Evicted, Markable, Candidate, Drained, Held,
         Placed;
    match op {
      case Allocate(x) => NewIsOther(a, x, p, mine); NewSpares(a, op, p, mine);
      case AllocateChild(x, q) => NewIsOther(a, x, p, mine); NewSpares(a, op, p, mine);
      case Reuse(x) => NewIsOther(a, x, p, mine); NewSpares(a, op, p, mine);
      case Insert(x) => LinksSpare(a, x, p, mine);
      case Unlink(x) => LinksSpare(a, x, p, mine);
      case Acquire(x) => HandlesSpare(a, x, a.handles[x] + 1, p, mine);
      case Mark(x) => MarkSpares(a, op, p, mine);
      case Unmark(x) => MarkSpares(a, op, p, mine);
      case Drop(x) => DropSpares(a, x, p, mine);
      case Evict(x) => EvictSpares(a, x, p, mine);
    }
    StillOwned(a, Apply(a, op), p, mine);
  }

  lemma MarkSpares(a: State, op: Op, p: Item, mine: set<Item>)
    requires Enabled(a, op) && (op.Mark? || op.Unmark?)
    ensures Untouched(a, Apply(a, op), p, mine)
  {
    hide PartOf;
    SamePart(a, Apply(a, op), p, mine);
  }

  lemma StillOwned(a: State, a': State, p: Item, mine: set<Item>)
    requires Owned(a, p, mine) && Untouched(a, a', p, mine) && Held(a', p)
    ensures Owned(a', p, mine)
  {
    forall y | y in mine ensures y in a'.live && y in a'.parentOf && a'.parentOf[y] == p {
      assert SameChild(a, a', y);
    }
  }

  // ---------- the calls ----------

  /** A call under the chain lock; the caller holds the parent. `y` is the child a pop or a replacement
      takes out. */
  datatype Call = AddCall(p: Item, x: Item) | PopCall(p: Item, y: Item) | ReplaceCall(p: Item, i: nat, x: Item, y: Item)

  /** What the call needs, and gets from the state it starts in. */
  ghost predicate Ready(a: State, c: Call) {
    && Held(a, c.p) && c.p in a.live && c.p !in a.parentOf
    && match c
       case AddCall(p, x) => CanAdd(a, p, x)
       case PopCall(p, y) => p in a.chains && a.chains[p] != [] && y == a.chains[p][0]
       case ReplaceCall(p, i, x, y) => CanReplace(a, p, i, x) && y == a.chains[p][i]
  }

  ghost function Mine(a: State, c: Call): set<Item> {
    Members(ChainOf(a.chains, c.p)) + if c.PopCall? then {} else {c.x}
  }

  /** The state when the call is over. */
  ghost function Result(a: State, c: Call): State
    requires Ready(a, c)
  {
    match c
    case AddCall(p, x) => WithChild(a, p, x)
    case PopCall(p, _) => WithoutHead(a, p)
    case ReplaceCall(p, i, x, _) => WithReplaced(a, p, i, x)
  }

  lemma ResultValid(a: State, c: Call)
    requires Valid(a) && Ready(a, c)
    ensures Valid(Result(a, c))
  {
    hide Valid, WithChild, WithoutHead, WithReplaced, CanAdd, CanReplace;
    match c
    case AddCall(p, x) => AddValid(a, p, x);
    case PopCall(p, _) => PopValid(a, p);
    case ReplaceCall(p, i, x, _) => ReplaceValid(a, p, i, x);
  }

  /** A call takes seven steps, and an eighth that ends it. */
  const STEPS := 7

  /** The steps of `addChainedItem`: the table, the hook, the counter and the flag of the parent, the
      counter of children, the parent's reference, the queue. `head` was the head before. */
  function AddStep(s: State, p: Item, x: Item, head: Option<Item>, k: nat): State {
    match k
    case 0 => s.(heads := s.heads[p := x])
    case 1 => if head.Some? then s.(next := s.next[x := head.value]) else s
    case 2 => if p in s.hasChained then s else s.(numParents := s.numParents + 1)
    case 3 => s.(hasChained := s.hasChained + {p})
    case 4 => s.(numChildren := s.numChildren + 1)
    case 5 => if x in s.refs then s.(refs := s.refs[x := s.refs[x] + 1]) else s
    case _ => s.(inMM := s.inMM + {x})
  }

  /** The steps of `popChainedItem`: a handle on the head, the table, the flag and the counter of a parent
      without further children, the hook; then, without the lock, the queue and the parent's reference. */
  function PopStep(s: State, p: Item, x: Item, next: Option<Item>, k: nat): State {
    match k
    case 0 => if x in s.refs then s.(refs := s.refs[x := s.refs[x] + 1]) else s
    case 1 => s.(heads := if next.Some? then s.heads[p := next.value] else s.heads - {p})
    case 2 => if next.Some? then s else s.(hasChained := s.hasChained - {p})
    case 3 => if next.Some? then s else s.(numParents := s.numParents - 1)
    case 4 => s.(next := s.next - {x})
    case 5 => s.(inMM := s.inMM - {x})
    case _ => if x in s.refs && s.refs[x] > 0 then s.(refs := s.refs[x := s.refs[x] - 1]) else s
  }

  /** The steps of `replaceChainedItem`: a handle on the old child, the queue, the table or the hook before
      it, the new child's hook, the old one's, and the parent's references. */
  function ReplaceStep(s: State, p: Item, y: Item, x: Item, prev: Option<Item>, next: Option<Item>, k: nat): State {
    match k
    case 0 => if y in s.refs then s.(refs := s.refs[y := s.refs[y] + 1]) else s
    case 1 => s.(inMM := s.inMM - {y} + {x})
    case 2 => if prev.Some? then s.(next := s.next[prev.value := x]) else s.(heads := s.heads[p := x])
    case 3 => if next.Some? then s.(next := s.next[x := next.value]) else s
    case 4 => s.(next := s.next - {y})
    case 5 => if y in s.refs && s.refs[y] > 0 then s.(refs := s.refs[y := s.refs[y] - 1]) else s
    case _ => if x in s.refs then s.(refs := s.refs[x := s.refs[x] + 1]) else s
  }

  // ---------- one field of a spliced state ----------

  lemma SpliceHead(a: State, p: Item, mine: set<Item>, d: Part, h: Item)
    ensures var s := Splice(a, p, mine, d);
            && s.(heads := s.heads[p := h]) == Splice(a, p, mine, d.(head := Some(h)))
            && s.(heads := s.heads - {p}) == Splice(a, p, mine, d.(head := None))
            && s.(hasChained := s.hasChained + {p}) == Splice(a, p, mine, d.(flag := true))
            && s.(hasChained := s.hasChained - {p}) == Splice(a, p, mine, d.(flag := false))
            && (p in s.hasChained <==> d.flag)
  {
    var s := Splice(a, p, mine, d);
    assert s.heads[p := h] == a.heads[p := h] && s.heads - {p} == a.heads - {p};
    assert s.hasChained + {p} == a.hasChained + {p} && s.hasChained - {p} == a.hasChained - {p};
  }

  lemma PutIn<V>(m: map<Item, V>, mine: set<Item>, n: map<Item, V>, x: Item, v: V)
    requires x in mine
    ensures ((m - mine) + n)[x := v] == (m - mine) + n[x := v] && (m - mine) + n - {x} == (m - mine) + (n - {x})
  {
  }

  lemma SpliceNext(a: State, p: Item, mine: set<Item>, d: Part, x: Item, v: Item)
    requires x in mine
    ensures var s := Splice(a, p, mine, d);
            && s.(next := s.next[x := v]) == Splice(a, p, mine, d.(next := d.next[x := v]))
            && s.(next := s.next - {x}) == Splice(a, p, mine, d.(next := d.next - {x}))
  {
    PutIn(a.next, mine, d.next, x, v);
  }

  lemma SpliceRefs(a: State, p: Item, mine: set<Item>, d: Part, x: Item, n: nat)
    requires x in mine && d.refs.Keys == mine
    ensures var s := Splice(a, p, mine, d);
            && x in s.refs && s.refs[x] == d.refs[x]
            && s.(refs := s.refs[x := n]) == Splice(a, p, mine, d.(refs := d.refs[x := n]))
  {
    PutIn(a.refs, mine, d.refs, x, n);
  }

  lemma SpliceQueue(a: State, p: Item, mine: set<Item>, d: Part, add: set<Item>, less: set<Item>)
    requires add <= mine && less <= mine && d.inMM <= mine
    ensures var s := Splice(a, p, mine, d);
            s.(inMM := s.inMM - less + add) == Splice(a, p, mine, d.(inMM := d.inMM - less + add))
  {
    var s := Splice(a, p, mine, d);
    assert s.inMM - less + add == (a.inMM - mine) + (d.inMM - less + add);
  }

  lemma SpliceCounts(a: State, p: Item, mine: set<Item>, d: Part, n: int)
    ensures var s := Splice(a, p, mine, d);
            && s.(numParents := s.numParents + n) == Splice(a, p, mine, d.(parents := d.parents + n))
            && s.(numChildren := s.numChildren + n) == Splice(a, p, mine, d.(children := d.children + n))
  {
  }

  // ---------- adding ----------

  function AddPartStep(e: Part, x: Item, head: Option<Item>, k: nat): Part {
    match k
    case 0 => e.(head := Some(x))
    case 1 => if head.Some? then e.(next := e.next[x := head.value]) else e
    case 2 => if e.flag then e else e.(parents := e.parents + 1)
    case 3 => e.(flag := true)
    case 4 => e.(children := e.children + 1)
    case 5 => if x in e.refs then e.(refs := e.refs[x := e.refs[x] + 1]) else e
    case _ => e.(inMM := e.inMM - {} + {x})
  }

  lemma AddCommutes(a: State, p: Item, mine: set<Item>, e: Part, x: Item, head: Option<Item>, k: nat)
    requires PartOk(e, mine) && x in mine
    ensures AddStep(Splice(a, p, mine, e), p, x, head, k) == Splice(a, p, mine, AddPartStep(e, x, head, k))
  {
    hide Splice;
    match k {
      case 0 => SpliceHead(a, p, mine, e, x);
      case 1 => SpliceNext(a, p, mine, e, x, if head.Some? then head.value else 0);
      case 2 => SpliceHead(a, p, mine, e, x); SpliceCounts(a, p, mine, e, 1);
      case 3 => SpliceHead(a, p, mine, e, x);
      case 4 => SpliceCounts(a, p, mine, e, 1);
      case 5 => SpliceRefs(a, p, mine, e, x, e.refs[x] + 1);
      case _ =>
        SpliceQueue(a, p, mine, e, {x}, {});
        var q := Splice(a, p, mine, e).inMM;
        assert q - {} + {x} == q + {x};
    }
  }

  // ---------- popping and replacing ----------

  function PopPartStep(e: Part, y: Item, next: Option<Item>, k: nat): Part {
    match k
    case 0 => if y in e.refs then e.(refs := e.refs[y := e.refs[y] + 1]) else e
    case 1 => e.(head := next)
    case 2 => if next.Some? then e else e.(flag := false)
    case 3 => if next.Some? then e else e.(parents := e.parents + -1)
    case 4 => e.(next := e.next - {y})
    case 5 => e.(inMM := e.inMM - {y} + {})
    case _ => if y in e.refs && e.refs[y] > 0 then e.(refs := e.refs[y := e.refs[y] - 1]) else e
  }

  lemma PopCommutes(a: State, p: Item, mine: set<Item>, e: Part, y: Item, next: Option<Item>, k: nat)
    requires PartOk(e, mine) && y in mine
    ensures PopStep(Splice(a, p, mine, e), p, y, next, k) == Splice(a, p, mine, PopPartStep(e, y, next, k))
  {
    hide Splice;
    var s := Splice(a, p, mine, e);
    match k {
      case 0 => SpliceRefs(a, p, mine, e, y, e.refs[y] + 1);
      case 1 => SpliceHead(a, p, mine, e, if next.Some? then next.value else 0);
      case 2 => SpliceHead(a, p, mine, e, 0);
      case 3 => SpliceCounts(a, p, mine, e, -1);
      case 4 => SpliceNext(a, p, mine, e, y, 0);
      case 5 =>
        SpliceQueue(a, p, mine, e, {}, {y});
        assert s.inMM - {y} + {} == s.inMM - {y};
      case _ => SpliceRefs(a, p, mine, e, y, e.refs[y] - 1);
    }
  }

  function ReplacePartStep(e: Part, y: Item, x: Item, prev: Option<Item>, next: Option<Item>, k: nat): Part {
    match k
    case 0 => if y in e.refs then e.(refs := e.refs[y := e.refs[y] + 1]) else e
    case 1 => e.(inMM := e.inMM - {y} + {x})
    case 2 => if prev.Some? then e.(next := e.next[prev.value := x]) else e.(head := Some(x))
    case 3 => if next.Some? then e.(next := e.next[x := next.value]) else e
    case 4 => e.(next := e.next - {y})
    case 5 => if y in e.refs && e.refs[y] > 0 then e.(refs := e.refs[y := e.refs[y] - 1]) else e
    case _ => if x in e.refs then e.(refs := e.refs[x := e.refs[x] + 1]) else e
  }

  lemma ReplaceCommutes(a: State, p: Item, mine: set<Item>, e: Part, y: Item, x: Item, prev: Option<Item>,
      next: Option<Item>, k: nat)
    requires PartOk(e, mine) && y in mine && x in mine && (prev.Some? ==> prev.value in mine)
    ensures ReplaceStep(Splice(a, p, mine, e), p, y, x, prev, next, k) ==
            Splice(a, p, mine, ReplacePartStep(e, y, x, prev, next, k))
  {
    hide Splice;
    match k {
      case 0 => SpliceRefs(a, p, mine, e, y, e.refs[y] + 1);
      case 1 => SpliceQueue(a, p, mine, e, {x}, {y});
      case 2 =>
        SpliceHead(a, p, mine, e, x);
        if prev.Some? {
          SpliceNext(a, p, mine, e, prev.value, x);
        }
      case 3 => SpliceNext(a, p, mine, e, x, if next.Some? then next.value else 0);
      case 4 => SpliceNext(a, p, mine, e, y, 0);
      case 5 => SpliceRefs(a, p, mine, e, y, e.refs[y] - 1);
      case _ => SpliceRefs(a, p, mine, e, x, e.refs[x] + 1);
    }
  }

  // ---------- all calls ----------

  /** What a call reads under the lock: the head, and the children around the one it takes out. */
  datatype Around = Around(head: Option<Item>, prev: Option<Item>, next: Option<Item>)

  ghost function Reads(a: State, c: Call): Around
    requires Ready(a, c)
  {
    Around(if c.p in a.heads then Some(a.heads[c.p]) else None,
           if c.ReplaceCall? && c.i > 0 then Some(a.chains[c.p][c.i - 1]) else None,
           if !c.AddCall? && c.y in a.next then Some(a.next[c.y]) else None)
  }

  function CallStep(s: State, c: Call, r: Around, k: nat): State {
    match c
    case AddCall(p, x) => AddStep(s, p, x, r.head, k)
    case PopCall(p, y) => PopStep(s, p, y, r.next, k)
    case ReplaceCall(p, _, x, y) => ReplaceStep(s, p, y, x, r.prev, r.next, k)
  }

  function PartStep(e: Part, c: Call, r: Around, k: nat): Part {
    match c
    case AddCall(_, x) => AddPartStep(e, x, r.head, k)
    case PopCall(_, y) => PopPartStep(e, y, r.next, k)
    case ReplaceCall(_, _, x, y) => ReplacePartStep(e, y, x, r.prev, r.next, k)
  }

  function PartAt(d: Part, c: Call, r: Around, k: nat): Part {
    if k == 0 then d else PartStep(PartAt(d, c, r, k - 1), c, r, k - 1)
  }

  function StateAt(a: State, c: Call, r: Around, k: nat): State {
    if k == 0 then a else CallStep(StateAt(a, c, r, k - 1), c, r, k - 1)
  }

  ghost predicate InMine(c: Call, r: Around, mine: set<Item>) {
    && (!c.PopCall? ==> c.x in mine) && (!c.AddCall? ==> c.y in mine) && (c.ReplaceCall? ==> c.x != c.y)
    && (r.prev.Some? ==> r.prev.value in mine)
  }

  lemma CallCommutes(a: State, c: Call, r: Around, mine: set<Item>, e: Part, k: nat)
    requires PartOk(e, mine) && InMine(c, r, mine)
    ensures CallStep(Splice(a, c.p, mine, e), c, r, k) == Splice(a, c.p, mine, PartStep(e, c, r, k))
  {
    hide Splice, PartOk, AddStep, PopStep, ReplaceStep, AddPartStep, PopPartStep, ReplacePartStep;
    match c
    case AddCall(p, x) => AddCommutes(a, p, mine, e, x, r.head, k);
    case PopCall(p, y) => PopCommutes(a, p, mine, e, y, r.next, k);
    case ReplaceCall(p, _, x, y) => ReplaceCommutes(a, p, mine, e, y, x, r.prev, r.next, k);
  }

  /** While a call has its handle on the child it takes out, that child has two references. */
  ghost predicate RefsAt(d: Part, e: Part, c: Call, k: nat) {
    && e.refs.Keys == d.refs.Keys && (k == 0 ==> e.refs == d.refs)
    && (forall z :: z in d.refs ==> e.refs[z] >= d.refs[z])
    && (c.PopCall? && 1 <= k <= 6 && c.y in d.refs ==> e.refs[c.y] == d.refs[c.y] + 1)
    && (c.ReplaceCall? && 1 <= k <= 5 && c.y in d.refs ==> e.refs[c.y] == d.refs[c.y] + 1)
  }

  lemma {:induction false} PartAtOk(d: Part, c: Call, r: Around, mine: set<Item>, k: nat)
    requires PartOk(d, mine) && InMine(c, r, mine) && k <= STEPS
    ensures PartOk(PartAt(d, c, r, k), mine) && RefsAt(d, PartAt(d, c, r, k), c, k)
  {
    if k > 0 {
      PartAtOk(d, c, r, mine, k - 1);
      var e := PartAt(d, c, r, k - 1);
      hide PartAt;
      PartStepOk(d, e, c, r, mine, k - 1);
      assert PartAt(d, c, r, k) == PartStep(e, c, r, k - 1) by { PartAtNext(d, c, r, k - 1); }
    }
  }

  lemma PartAtNext(d: Part, c: Call, r: Around, k: nat)
    ensures PartAt(d, c, r, k + 1) == PartStep(PartAt(d, c, r, k), c, r, k)
  {
  }

  lemma PartStepOk(d: Part, e: Part, c: Call, r: Around, mine: set<Item>, k: nat)
    requires PartOk(d, mine) && PartOk(e, mine) && InMine(c, r, mine) && k < STEPS && RefsAt(d, e, c, k)
    ensures PartOk(PartStep(e, c, r, k), mine) && RefsAt(d, PartStep(e, c, r, k), c, k + 1)
  {
    hide PartOk, PartStep, RefsAt, InMine;
    match c
    case AddCall(_, _) => AddStepOk(d, e, c, r, mine, k);
    case PopCall(_, _) => PopStepOk(d, e, c, r, mine, k);
    case ReplaceCall(_, _, _, _) => ReplaceStepOk(d, e, c, r, mine, k);
  }

  lemma AddStepOk(d: Part, e: Part, c: Call, r: Around, mine: set<Item>, k: nat)
    requires PartOk(d, mine) && PartOk(e, mine) && InMine(c, r, mine) && k < STEPS && RefsAt(d, e, c, k) && c.AddCall?
    ensures PartOk(PartStep(e, c, r, k), mine) && RefsAt(d, PartStep(e, c, r, k), c, k + 1)
  {
  }

  lemma PopStepOk(d: Part, e: Part, c: Call, r: Around, mine: set<Item>, k: nat)
    requires PartOk(d, mine) && PartOk(e, mine) && InMine(c, r, mine) && k < STEPS && RefsAt(d, e, c, k) && c.PopCall?
    ensures PartOk(PartStep(e, c, r, k), mine) && RefsAt(d, PartStep(e, c, r, k), c, k + 1)
  {
  }

  lemma ReplaceStepOk(d: Part, e: Part, c: Call, r: Around, mine: set<Item>, k: nat)
    requires PartOk(d, mine) && PartOk(e, mine) && InMine(c, r, mine) && k < STEPS && RefsAt(d, e, c, k)
    requires c.ReplaceCall?
    ensures PartOk(PartStep(e, c, r, k), mine) && RefsAt(d, PartStep(e, c, r, k), c, k + 1)
  {
  }

  lemma {:induction false} StateIsSplice(a: State, c: Call, r: Around, mine: set<Item>, k: nat)
    requires PartOk(PartOf(a, c.p, mine), mine) && InMine(c, r, mine) && k <= STEPS
    ensures StateAt(a, c, r, k) == Splice(a, c.p, mine, PartAt(PartOf(a, c.p, mine), c, r, k))
  {
    hide PartOf, Splice, PartOk, CallStep, PartStep, InMine;
    var d := PartOf(a, c.p, mine);
    if k == 0 {
      SpliceNothing(a, c.p, mine);
    } else {
      StateIsSplice(a, c, r, mine, k - 1);
      PartAtOk(d, c, r, mine, k - 1);
      CallCommutes(a, c, r, mine, PartAt(d, c, r, k - 1), k - 1);
    }
  }

  // ---------- the end of a call ----------

  ghost predicate CanEnd(s: State, c: Call) {
    && (!c.AddCall? ==> c.p in s.chains && s.chains[c.p] != [])
    && (c.ReplaceCall? ==> c.i < |s.chains[c.p]|)
    && (!c.PopCall? ==> c.x in s.refs && s.refs[c.x] > 0)
  }

  /** The last step: the handle that was given away goes, or the child counter; and the history follows. */
  ghost function Ended(s: State, c: Call): State
    requires CanEnd(s, c)
  {
    match c
    case AddCall(p, x) =>
      s.(refs := s.refs[x := s.refs[x] - 1], handles := s.handles[x := 0], chains := Pushed(s.chains, p, x),
        kids := s.kids + {x})
    case PopCall(p, y) =>
      s.(numChildren := s.numChildren - 1, handles := s.handles[y := 1], chains := Popped(s.chains, p),
        kids := s.kids - {y})
    case ReplaceCall(p, i, x, y) =>
      s.(refs := s.refs[x := s.refs[x] - 1], handles := s.handles[y := 1][x := 0],
         chains := Substituted(s.chains, p, i, x), kids := s.kids - {y} + {x})
  }

  lemma SevenSteps(a: State, c: Call, r: Around, ss: seq<State>)
    requires |ss| == 8 && ss[0] == a && (forall k :: 0 <= k < 7 ==> CallStep(ss[k], c, r, k) == ss[k + 1])
    ensures StateAt(a, c, r, STEPS) == ss[7]
  {
    hide CallStep;
    StateFollows(a, c, r, ss, 7);
  }

  lemma {:induction false} StateFollows(a: State, c: Call, r: Around, ss: seq<State>, k: nat)
    requires |ss| == 8 && ss[0] == a && (forall i :: 0 <= i < 7 ==> CallStep(ss[i], c, r, i) == ss[i + 1]) && k <= 7
    ensures StateAt(a, c, r, k) == ss[k]
  {
    hide CallStep;
    if k > 0 {
      StateFollows(a, c, r, ss, k - 1);
      assert CallStep(ss[k - 1], c, r, k - 1) == ss[k - 1 + 1];
    }
  }

  lemma AddEnds(a: State, c: Call, r: Around)
    requires Valid(a) && c.AddCall? && Ready(a, c) && r == Reads(a, c)
    ensures var s := StateAt(a, c, r, STEPS); CanEnd(s, c) && Ended(s, c) == Result(a, c)
  {
    hide Valid, Pushed, StateAt, ChainOf, Held;
    var p, x := c.p, c.x;
    AddFacts(a, p, x);
    var s1 := a.(heads := a.heads[p := x]);
    var s2 := s1.(next := if p in a.heads then a.next[x := a.heads[p]] else a.next);
    var s3 := s2.(numParents := if p in a.hasChained then a.numParents else a.numParents + 1);
    var s4 := s3.(hasChained := a.hasChained + {p});
    var s5 := s4.(numChildren := a.numChildren + 1);
    var s6 := s5.(refs := a.refs[x := 2]);
    var s7 := s6.(inMM := a.inMM + {x});
    SevenSteps(a, c, r, [a, s1, s2, s3, s4, s5, s6, s7]);
    assert a.refs[x := 2][x := 1] == a.refs;
  }

  lemma AddFacts(a: State, p: Item, x: Item)
    requires Valid(a) && CanAdd(a, p, x)
    ensures x in a.refs && a.refs[x] == 1 && (p in a.heads <==> p in a.hasChained)
  {
    assert x in a.live;
    HeadsKnown(a, p);
  }

  ghost function PopDone(a: State, p: Item, y: Item): State {
    a.(heads := if y in a.next then a.heads[p := a.next[y]] else a.heads - {p},
       hasChained := if y in a.next then a.hasChained else a.hasChained - {p},
       numParents := if y in a.next then a.numParents else a.numParents - 1,
       next := a.next - {y}, inMM := a.inMM - {y})
  }

  lemma PopSteps(a: State, c: Call, r: Around)
    requires Valid(a) && c.PopCall? && Ready(a, c) && r == Reads(a, c)
    ensures StateAt(a, c, r, STEPS) == PopDone(a, c.p, c.y)
  {
    hide Valid, StateAt, Held;
    var p, y := c.p, c.y;
    PopFacts(a, p);
    var s1 := a.(refs := a.refs[y := 2]);
    var s2 := s1.(heads := if y in a.next then a.heads[p := a.next[y]] else a.heads - {p});
    var s3 := s2.(hasChained := if y in a.next then a.hasChained else a.hasChained - {p});
    var s4 := s3.(numParents := if y in a.next then a.numParents else a.numParents - 1);
    var s5 := s4.(next := a.next - {y});
    var s6 := s5.(inMM := a.inMM - {y});
    var s7 := s6.(refs := a.refs);
    assert a.refs[y := 2][y := 1] == a.refs;
    SevenSteps(a, c, r, [a, s1, s2, s3, s4, s5, s6, s7]);
  }

  lemma PopEnds(a: State, c: Call, r: Around)
    requires Valid(a) && c.PopCall? && Ready(a, c) && r == Reads(a, c)
    ensures var s := StateAt(a, c, r, STEPS); CanEnd(s, c) && Ended(s, c) == Result(a, c)
  {
    hide Valid, StateAt, Popped, Held, Reads;
    PopSteps(a, c, r);
    PopFacts(a, c.p);
  }

  lemma PopFacts(a: State, p: Item)
    requires Valid(a) && p in a.chains
    ensures a.chains[p] != []
    ensures var y := a.chains[p][0]; y in a.refs && a.refs[y] == 1 && (y in a.next <==> |a.chains[p]| > 1)
  {
    ChainFacts(a, p);
    PopShape(a.chains, a.next, a.parentOf, a.heads, p);
    var y := a.chains[p][0];
    assert y in a.chains[p];
    hide ChainsOk;
    assert y in a.parentOf.Keys;
  }

  ghost function ReplaceDone(a: State, p: Item, i: nat, x: Item): State
    requires p in a.chains && i < |a.chains[p]|
  {
    var y := a.chains[p][i];
    a.(next := Rehooked(a.next, a.chains[p], i, x), heads := if i == 0 then a.heads[p := x] else a.heads,
       inMM := a.inMM - {y} + {x}, refs := a.refs[x := 2])
  }

  lemma ReplaceSteps(a: State, c: Call, r: Around)
    requires Valid(a) && c.ReplaceCall? && Ready(a, c) && r == Reads(a, c)
    ensures StateAt(a, c, r, STEPS) == ReplaceDone(a, c.p, c.i, c.x)
  {
    hide Valid, StateAt, Held;
    var p, i, x, y := c.p, c.i, c.x, c.y;
    ReplaceFacts(a, p, i, x);
    var t := a.chains[p];
    var s1 := a.(refs := a.refs[y := 2]);
    var s2 := s1.(inMM := a.inMM - {y} + {x});
    var n3 := if i > 0 then a.next[t[i - 1] := x] else a.next;
    var s3 := s2.(next := n3, heads := if i > 0 then a.heads else a.heads[p := x]);
    var n4 := if y in a.next then n3[x := a.next[y]] else n3;
    var s4 := s3.(next := n4);
    var s5 := s4.(next := n4 - {y});
    var s6 := s5.(refs := a.refs);
    var s7 := s6.(refs := a.refs[x := 2]);
    assert a.refs[y := 2][y := 1] == a.refs;
    SevenSteps(a, c, r, [a, s1, s2, s3, s4, s5, s6, s7]);
  }

  lemma ReplaceEnds(a: State, c: Call, r: Around)
    requires Valid(a) && c.ReplaceCall? && Ready(a, c) && r == Reads(a, c)
    ensures var s := StateAt(a, c, r, STEPS); CanEnd(s, c) && Ended(s, c) == Result(a, c)
  {
    hide Valid, StateAt, Substituted, Rehooked, Held, Reads;
    ReplaceSteps(a, c, r);
    ReplaceFacts(a, c.p, c.i, c.x);
    assert a.refs[c.x := 2][c.x := 1] == a.refs;
  }

  lemma ReplaceFacts(a: State, p: Item, i: nat, x: Item)
    requires Valid(a) && CanReplace(a, p, i, x)
    ensures var y := a.chains[p][i];
            y in a.refs && a.refs[y] == 1 && x in a.refs && a.refs[x] == 1 && x != y
  {
    ChainFacts(a, p);
    hide ChainsOk;
    var y := a.chains[p][i];
    assert y in a.chains[p];
    assert y in a.parentOf.Keys && x in a.parentOf.Keys;
  }

  lemma CallEnds(a: State, c: Call, r: Around)
    requires Valid(a) && Ready(a, c) && r == Reads(a, c)
    ensures var s := StateAt(a, c, r, STEPS); CanEnd(s, c) && Ended(s, c) == Result(a, c)
  {
    hide Valid, StateAt, Result, Ready, Reads;
    match c
    case AddCall(_, _) => AddEnds(a, c, r);
    case PopCall(_, _) => PopEnds(a, c, r);
    case ReplaceCall(_, _, _, _) => ReplaceEnds(a, c, r);
  }

  lemma MineFacts(a: State, c: Call)
    requires Valid(a) && Ready(a, c)
    ensures Owned(a, c.p, Mine(a, c)) && PartOk(PartOf(a, c.p, Mine(a, c)), Mine(a, c))
    ensures InMine(c, Reads(a, c), Mine(a, c))
  {
    if c.p in a.chains {
      ChainFacts(a, c.p);
    }
  }

  // ---------- runs ----------

  /** The call under way, the children it is about, what it has read, and how many steps it has taken. */
  datatype Busy = Busy(c: Call, mine: set<Item>, r: Around, k: nat)

  datatype World = World(
    s: State,
    // history: the state as if the call under way had not begun
    before: State,
    busy: Option<Busy>)

  datatype Action = Begin(c: Call) | Advance | Finish | Other(op: Op)

  /** While a call is under way others do without the chain lock; the caller keeps its handles. */
  ghost predicate Possible(w: World, a: Action) {
    match a
    case Begin(c) => w.busy == None && Ready(w.s, c)
    case Advance => w.busy.Some? && w.busy.value.k < STEPS
    case Finish => w.busy.Some? && w.busy.value.k == STEPS && CanEnd(w.s, w.busy.value.c)
    case Other(op) =>
      && Enabled(w.s, op)
      && (w.busy.Some? ==> LockFree(op) && Spares(op, w.busy.value.mine) && Held(Apply(w.s, op), w.busy.value.c.p))
  }

  ghost function Next(w: World, a: Action): World
    requires Possible(w, a)
  {
    match a
    case Begin(c) => w.(busy := Some(Busy(c, Mine(w.s, c), Reads(w.s, c), 0)))
    case Advance =>
      var b := w.busy.value;
      w.(s := CallStep(w.s, b.c, b.r, b.k), busy := Some(b.(k := b.k + 1)))
    case Finish =>
      var c := w.busy.value.c;
      World(Ended(w.s, c), if Ready(w.before, c) then Result(w.before, c) else w.before, None)
    case Other(op) =>
      w.(s := Apply(w.s, op), before := if Enabled(w.before, op) then Apply(w.before, op) else w.before)
  }

  ghost predicate AllPossible(w: World, acts: seq<Action>)
    decreases |acts|
  {
    acts == [] || (Possible(w, acts[0]) && AllPossible(Next(w, acts[0]), acts[1..]))
  }

  ghost function After(w: World, acts: seq<Action>): World
    requires AllPossible(w, acts)
    decreases |acts|
  {
    if acts == [] then w else After(Next(w, acts[0]), acts[1..])
  }

  /** The state is what the call has made of the state before it, whatever others did to that meanwhile. */
  ghost predicate BusyOk(w: World, b: Busy) {
    && Ready(w.before, b.c) && b.mine == Mine(w.before, b.c) && b.r == Reads(w.before, b.c)
    && b.k <= STEPS && w.s == StateAt(w.before, b.c, b.r, b.k)
  }

  ghost predicate Inv(w: World) {
    Valid(w.before) && if w.busy.Some? then BusyOk(w, w.busy.value) else w.s == w.before
  }

  lemma ReadyKept(a: State, a': State, c: Call)
    requires Ready(a, c) && Untouched(a, a', c.p, Mine(a, c)) && Held(a', c.p)
    ensures Ready(a', c) && Mine(a', c) == Mine(a, c) && Reads(a', c) == Reads(a, c)
  {
    var p, mine := c.p, Mine(a, c);
    if !c.PopCall? {
      assert c.x in mine && SameChild(a, a', c.x);
    }
    if !c.AddCall? {
      assert a'.chains[p] == a.chains[p];
      assert c.y in mine;
      assert c.y in a.next <==> c.y in PartOf(a, p, mine).next;
      assert c.y in a'.next <==> c.y in PartOf(a', p, mine).next;
    }
  }

  lemma OtherKeeps(w: World, op: Op)
    requires Inv(w) && w.busy.Some? && Possible(w, Other(op))
    ensures Inv(Next(w, Other(op)))
  {
    hide Valid, Enabled, Apply, Splice, PartOf, PartAt, StateAt, Ready, Reads, Mine, Owned, PartOk, InMine, LockFree,
         Spares, Held;
    var b, a := w.busy.value, w.before;
    var p := b.c.p;
    MineFacts(a, b.c);
    StateIsSplice(a, b.c, b.r, b.mine, b.k);
    var d := PartOf(a, p, b.mine);
    var e := PartAt(d, b.c, b.r, b.k);
    PartAtOk(d, b.c, b.r, b.mine, b.k);
    OthersCommute(a, op, p, b.mine, e);
    var a' := Apply(a, op);
    SpliceHandles(a', p, b.mine, e);
    OthersSpare(a, op, p, b.mine);
    ApplyValid(a, op);
    ReadyKept(a, a', b.c);
    SparedPart(a, a', p, b.mine);
    StateIsSplice(a', b.c, b.r, b.mine, b.k);
  }

  lemma SpliceHandles(a: State, p: Item, mine: set<Item>, e: Part)
    ensures Held(Splice(a, p, mine, e), p) == Held(a, p)
  {
  }

  lemma SparedPart(a: State, a': State, p: Item, mine: set<Item>)
    requires Untouched(a, a', p, mine)
    ensures PartOf(a', p, mine) == PartOf(a, p, mine)
  {
  }

  lemma InvKept(w: World, a: Action)
    requires Inv(w) && Possible(w, a)
    ensures Inv(Next(w, a))
  {
    hide Valid, Enabled, Apply, Ready, Reads, Mine, CallStep, Ended, Result, LockFree, Spares, Held;
    match a
    case Begin(c) =>
    case Advance =>
    case Finish =>
      var b := w.busy.value;
      CallEnds(w.before, b.c, b.r);
      ResultValid(w.before, b.c);
    case Other(op) =>
      if w.busy.Some? {
        OtherKeeps(w, op);
      } else {
        ApplyValid(w.s, op);
      }
  }

  lemma {:induction false} RunInv(w: World, acts: seq<Action>)
    requires Inv(w) && AllPossible(w, acts)
    ensures Inv(After(w, acts))
    decreases |acts|
  {
    if acts != [] {
      InvKept(w, acts[0]);
      hide Inv, Possible, Next;
      RunInv(Next(w, acts[0]), acts[1..]);
    }
  }

  // ---------- what every interleaving guarantees ----------

  const FRESH := World(EMPTY, EMPTY, None)

  /** Whenever no chain operation is under way, all chains are in order. */
  lemma StacksWhenFree(acts: seq<Action>)
    requires AllPossible(FRESH, acts)
    ensures var w := After(FRESH, acts); w.busy == None ==> Stacks(w.s)
  {
    RunInv(FRESH, acts);
    var w := After(FRESH, acts);
    hide AllPossible, After, Stacks, Valid;
    if w.busy == None {
      ValidStacks(w.s);
    }
  }

  /** The table, the hooks, the flag, the references and the queue agree on the chain of `q`. */
  ghost predicate Intact(s: State, q: Item) {
    && (q in s.chains <==> q in s.heads) && (q in s.chains <==> q in s.hasChained)
    && (q in s.chains ==>
          && s.chains[q] != [] && s.heads[q] == s.chains[q][0] && Spelled(s.next, s.chains[q]) && Distinct(s.chains[q])
          && (forall y :: y in s.chains[q] ==>
                y in s.parentOf && s.parentOf[y] == q && y in s.inMM && y in s.refs && s.refs[y] == 1))
  }

  lemma ValidIntact(a: State, q: Item)
    requires Valid(a)
    ensures Intact(a, q)
  {
    HeadsKnown(a, q);
    if q in a.chains {
      ChainFacts(a, q);
      assert a.heads[q] == a.chains[q][0] && Spelled(a.next, a.chains[q]);
      hide ChainsOk, Spelled, Distinct;
      forall y | y in a.chains[q] ensures y in a.inMM && y in a.refs && a.refs[y] == 1 {
        assert y in a.parentOf.Keys;
      }
    }
  }

  lemma SpliceIntact(a: State, p: Item, mine: set<Item>, d: Part, q: Item)
    requires Intact(a, q) && q != p && PartOk(d, mine) && Members(ChainOf(a.chains, q)) !! mine
    ensures Intact(Splice(a, p, mine, d), q)
  {
    hide Spelled, Distinct;
    var s := Splice(a, p, mine, d);
    if q in a.chains {
      forall y | y in a.chains[q] ensures (y in a.next <==> y in s.next) && (y in a.next ==> a.next[y] == s.next[y]) {
        assert y in Members(ChainOf(a.chains, q));
      }
      SameSpelling(a.next, s.next, a.chains[q]);
      forall y | y in a.chains[q] ensures y in s.inMM && y in s.refs && s.refs[y] == 1 {
        assert y in Members(ChainOf(a.chains, q));
      }
    }
  }

  /** While one is under way, the chains of all other parents are in order at every step. */
  lemma OtherChainsIntact(acts: seq<Action>, q: Item)
    requires AllPossible(FRESH, acts)
    ensures var w := After(FRESH, acts); w.busy.Some? && q != w.busy.value.c.p ==> Intact(w.s, q)
  {
    RunInv(FRESH, acts);
    var w := After(FRESH, acts);
    hide AllPossible, After, Valid, Intact, Ready, Mine, Reads, StateAt, PartAt, PartOf, Splice, PartOk, Owned, InMine;
    if w.busy.Some? && q != w.busy.value.c.p {
      var b, a := w.busy.value, w.before;
      MineFacts(a, b.c);
      StateIsSplice(a, b.c, b.r, b.mine, b.k);
      PartAtOk(PartOf(a, b.c.p, b.mine), b.c, b.r, b.mine, b.k);
      ValidIntact(a, q);
      OtherFamily(a, b.c.p, b.mine, q);
      SpliceIntact(a, b.c.p, b.mine, PartAt(PartOf(a, b.c.p, b.mine), b.c, b.r, b.k), q);
    }
  }

  lemma FinishExact(w: World)
    requires Inv(w) && w.busy.Some? && w.busy.value.k == STEPS
    ensures Possible(w, Finish) && Ready(w.before, w.busy.value.c)
    ensures Next(w, Finish).s == Result(w.before, w.busy.value.c)
  {
    hide Valid, Ready, Mine, Reads, StateAt, Ended, Result, CanEnd;
    CallEnds(w.before, w.busy.value.c, w.busy.value.r);
  }

  /** A call that has taken its steps can end, and has then done, to the state that others have made
      meanwhile, exactly what it does when nobody interferes. */
  lemma CallsAreAtomic(acts: seq<Action>)
    requires AllPossible(FRESH, acts)
    ensures var w := After(FRESH, acts);
            w.busy.Some? && w.busy.value.k == STEPS ==>
              && Possible(w, Finish) && Ready(w.before, w.busy.value.c)
              && Next(w, Finish).s == Result(w.before, w.busy.value.c)
  {
    FreshInv();
    hide Inv, AllPossible, After, Possible, Next, Ready, Result;
    RunInv(FRESH, acts);
    var w := After(FRESH, acts);
    if w.busy.Some? && w.busy.value.k == STEPS {
      FinishExact(w);
    }
  }

  lemma FreshInv()
    ensures Inv(FRESH)
  {
  }
}
