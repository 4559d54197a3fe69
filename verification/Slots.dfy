/** Every run of the allocator's item operations keeps the chains and the slots in order. */
module Slots {
  import opened Basics
  import opened Chains

  datatype Op =
    | Allocate(x: Item)
    | AllocateChild(x: Item, p: Item)
    | Reuse(x: Item)
    | Insert(x: Item)
    | Unlink(x: Item)
    | Acquire(x: Item)
    | Drop(x: Item)
    | Mark(x: Item)
    | Unmark(x: Item)
    | AddChild(p: Item, x: Item)
    | PopChild(p: Item)
    | ReplaceChild(p: Item, i: nat, x: Item)
    | MoveChild(p: Item, i: nat, x: Item)
    | Transfer(p: Item, q: Item)
    | MoveItem(p: Item, q: Item)
    | Evict(x: Item)

  /** The parent that has to go for a queued item to go. */
  function Candidate(s: State, x: Item): Item {
    if x in s.parentOf then s.parentOf[x] else x
  }

  /** An item can be evicted or moved when it is linked, unreferenced and not exclusive yet. */
  predicate Markable(s: State, x: Item) {
    x in s.inMM && x in s.refs && s.refs[x] == 0 && x !in s.exclusive
  }

  ghost predicate Enabled(s: State, op: Op) {
    match op
    case Allocate(x) => x !in s.live
    case AllocateChild(x, p) => x !in s.live && p in s.live && Held(s, p) && p !in s.parentOf
    case Reuse(x) => x in s.recycled
    case Insert(x) => x in s.live && Held(s, x) && x !in s.parentOf
    case Unlink(x) => x in s.live && Held(s, x) && x !in s.parentOf
    case Acquire(x) => x in s.live && x in s.handles && x !in s.kids && (Held(s, x) || Placed(s, x))
      && x !in s.exclusive
    case Drop(x) => x in s.live && Held(s, x)
    case Mark(x) => Markable(s, x) && x !in s.parentOf
    case Unmark(x) => x in s.exclusive
    case AddChild(p, x) => CanAdd(s, p, x)
    case PopChild(p) => p in s.chains && s.chains[p] != []
    case ReplaceChild(p, i, x) => CanReplace(s, p, i, x)
    case MoveChild(p, i, x) => CanReplace(s, p, i, x)
    case Transfer(p, q) =>
      && p in s.chains && p in s.heads && Held(s, p) && p !in s.parentOf
      && q !in s.chains && q in s.live && Held(s, q) && q !in s.parentOf && !Placed(s, q)
    case MoveItem(p, q) =>
      Markable(s, p) && p in s.accessible && p !in s.parentOf && (p in s.chains ==> p in s.heads) && q !in s.live
    case Evict(x) => x in s.inMM && Markable(s, Candidate(s, x))
  }

  ghost function WithHandles(s: State, x: Item, n: nat): State {
    s.(handles := s.handles[x := n], refs := s.refs[x := n])
  }

  /** Unlinks the candidate from both containers. */
  ghost function Unlinked(s: State, x: Item): State {
    s.(inMM := s.inMM - {x}, accessible := s.accessible - {x})
  }

  ghost function Apply(s: State, op: Op): State
    requires Enabled(s, op)
  {
    match op
    case Allocate(x) => WithHandles(s.(live := s.live + {x}), x, 1)
    case AllocateChild(x, p) => WithHandles(s.(live := s.live + {x}, parentOf := s.parentOf[x := p]), x, 1)
    case Reuse(x) => WithHandles(s.(recycled := s.recycled - {x}), x, 1)
    case Insert(x) => Inserted(s, x)
    case Unlink(x) => Unlinked(s, x)
    case Acquire(x) => WithHandles(s, x, s.handles[x] + 1)
    case Drop(x) =>
      var s1 := WithHandles(s, x, s.handles[x] - 1);
      if Drained(s1, x) then WithReleased(s1, x, None) else s1
    case Mark(x) => s.(exclusive := s.exclusive + {x})
    case Unmark(x) => s.(exclusive := s.exclusive - {x})
    case AddChild(p, x) => WithChild(s, p, x)
    case PopChild(p) => WithoutHead(s, p)
    case ReplaceChild(p, i, x) => WithReplaced(s, p, i, x)
    case MoveChild(p, i, x) => Dropped(WithReplaced(s, p, i, x), s.chains[p][i])
    case Transfer(p, q) => Succeeded(WithTransferred(s, p, q), p, q)
    case MoveItem(p, q) => Moved(s, p, q)
    case Evict(x) => Evicted(s, x)
  }

  /** Links an item into both containers. */
  ghost function Inserted(s: State, x: Item): State {
    s.(inMM := s.inMM + {x}, accessible := s.accessible + {x})
  }

  /** `q` takes the place of `p` in both containers, if `p` is in both. When it left its queue the table
      gives `q` up again, and `p` is out of it too. */
  ghost function Succeeded(s: State, p: Item, q: Item): State {
    if p !in s.accessible then s
    else if p in s.inMM then Unlinked(Inserted(s, q), p)
    else s.(accessible := s.accessible - {p})
  }

  /** A new item with the chain of `p`. */
  ghost function Twin(s: State, p: Item, q: Item): State
    requires p in s.chains ==> p in s.heads
  {
    var s1 := WithHandles(s.(live := s.live + {q}), q, 1);
    if p in s.chains then WithTransferred(s1, p, q) else s1
  }

  /** An item that nobody holds is moved to a new slot: the new item takes its chain and its place in
      both containers, and the old slot is freed. */
  ghost function Moved(s: State, p: Item, q: Item): State
    requires p in s.chains ==> p in s.heads
  {
    WithReleased(Unlinked(WithHandles(Inserted(Twin(s, p, q), q), q, 0), p), p, None)
  }

  /** The candidate goes, and with it its children, except for the slot of `x`. */
  ghost function Evicted(s: State, x: Item): State {
    WithReleased(Unlinked(s, Candidate(s, x)), Candidate(s, x), Some(x))
  }

  /** The last handle of an unlinked child goes, and its slot is freed. */
  ghost function Dropped(s: State, y: Item): State {
    WithReleased(WithHandles(s, y, 0), y, None)
  }

  ghost predicate Runs(s: State, ops: seq<Op>)
    decreases |ops|
  {
    ops == [] || (Enabled(s, ops[0]) && Runs(Apply(s, ops[0]), ops[1..]))
  }

  ghost function Exec(s: State, ops: seq<Op>): State
    requires Runs(s, ops)
    decreases |ops|
  {
    if ops == [] then s else Exec(Apply(s, ops[0]), ops[1..])
  }

  const EMPTY := State({}, map[], map[], map[], {}, {}, {}, {}, map[], 0, 0, map[], {}, map[], {})

  // ---------- every operation keeps the state valid ----------

  lemma HandlesValid(s: State, x: Item, n: nat, loose: set<Item>)
    requires Valid(s) && x in s.live && x !in s.kids && x !in s.recycled && (n > 0 || Placed(s, x) || x in loose)
    requires (n > 0 ==> x !in s.exclusive) && loose <= {x}
    ensures ValidBut(WithHandles(s, x, n), loose)
  {
    hide Shape, KidsOk;
    var s' := WithHandles(s, x, n);
    forall y ensures Placed(s', y) == Placed(s, y) && (y != x ==> Held(s', y) == Held(s, y)) {
    }
  }

  lemma NewRefs(s: State, x: Item)
    requires RefsOk(s, {}) && x !in s.live && x !in s.kids
    ensures RefsOk(WithHandles(s.(live := s.live + {x}), x, 1), {})
  {
  }

  lemma NewSlots(s: State, x: Item)
    requires SlotsOk(s, {}) && x !in s.live
    ensures SlotsOk(WithHandles(s.(live := s.live + {x}), x, 1), {})
  {
    var s' := WithHandles(s.(live := s.live + {x}), x, 1);
    forall y ensures Placed(s', y) == Placed(s, y) && (y != x ==> Held(s', y) == Held(s, y)) {
    }
  }

  lemma NewValid(s: State, x: Item)
    requires Valid(s) && x !in s.live
    ensures Valid(WithHandles(s.(live := s.live + {x}), x, 1))
  {
    hide Shape, KidsOk, RefsOk, SlotsOk;
    NotKid(s, x);
    NewRefs(s, x);
    NewSlots(s, x);
  }

  lemma NotKid(s: State, x: Item)
    requires Valid(s) && x !in s.live
    ensures x !in s.kids
  {
    KidLinked(s, x);
  }

  lemma KeyedValid(s: State, x: Item, p: Item)
    requires Valid(s) && x in s.live && x !in s.parentOf && x !in s.chains
    requires x !in s.inMM && x !in s.accessible && x !in s.exclusive && x !in s.recycled
    ensures Valid(s.(parentOf := s.parentOf[x := p]))
  {
    hide Shape, KidsOk, Linked;
    RekeyShape(s.chains, s.next, s.parentOf, s.heads, s.kids, x, p);
    var s' := s.(parentOf := s.parentOf[x := p]);
    assert x !in s.kids by { KidLinked(s, x); NoKey(s.chains, s.parentOf, x); }
    forall y ensures Placed(s', y) == Placed(s, y) && Held(s', y) == Held(s, y) {
    }
  }

  lemma NoKey(c: ChainMap, parentOf: map<Item, Item>, x: Item)
    requires x !in parentOf
    ensures !Linked(c, parentOf, x)
  {
  }

  lemma NewChildValid(s: State, x: Item, p: Item)
    requires Valid(s) && x !in s.live
    ensures Valid(WithHandles(s.(live := s.live + {x}, parentOf := s.parentOf[x := p]), x, 1))
  {
    hide ChainsOk, RefsOk;
    NewValid(s, x);
    KeyedValid(WithHandles(s.(live := s.live + {x}), x, 1), x, p);
  }

  lemma RekeyShape(c: ChainMap, next: map<Item, Item>, parentOf: map<Item, Item>, heads: map<Item, Item>,
      kids: set<Item>, x: Item, p: Item)
    requires Shape(c, next, parentOf, heads) && KidsOk(c, parentOf, kids) && x !in parentOf
    ensures Shape(c, next, parentOf[x := p], heads) && KidsOk(c, parentOf[x := p], kids)
  {
    assert x !in kids && x !in next;
    forall q, y | q in c && y in c[q] ensures y != x {
      assert Linked(c, parentOf, y);
    }
    forall y ensures Linked(c, parentOf[x := p], y) == Linked(c, parentOf, y) {
    }
  }

  lemma ReuseValid(s: State, x: Item)
    requires Valid(s) && x in s.recycled
    ensures Valid(WithHandles(s.(recycled := s.recycled - {x}), x, 1))
  {
    hide Shape;
    var s' := WithHandles(s.(recycled := s.recycled - {x}), x, 1);
    assert x !in s.kids by { KidLinked(s, x); }
    forall y ensures Placed(s', y) == Placed(s, y) && (y != x ==> Held(s', y) == Held(s, y)) {
    }
  }

  lemma InsertValid(s: State, x: Item)
    requires Valid(s) && x in s.live && Held(s, x) && x !in s.parentOf
    ensures Valid(Inserted(s, x))
  {
    hide Shape, KidsOk;
    var s' := Inserted(s, x);
    forall y ensures Held(s', y) == Held(s, y) && (y != x ==> Placed(s', y) == Placed(s, y)) {
    }
  }

  lemma UnlinkValid(s: State, x: Item, loose: set<Item>)
    requires Valid(s) && x in s.live && x !in s.parentOf && x !in s.exclusive && (Held(s, x) || x in loose)
    requires loose <= {x}
    ensures ValidBut(Unlinked(s, x), loose)
  {
    hide Shape, KidsOk;
    var s' := Unlinked(s, x);
    forall y ensures Held(s', y) == Held(s, y) && (y != x ==> Placed(s', y) == Placed(s, y)) {
    }
  }

  lemma MarkValid(s: State, x: Item, mark: bool)
    requires Valid(s) && (mark ==> Markable(s, x) && x !in s.parentOf)
    ensures Valid(s.(exclusive := if mark then s.exclusive + {x} else s.exclusive - {x}))
  {
    hide Shape;
    var s' := s.(exclusive := if mark then s.exclusive + {x} else s.exclusive - {x});
    if mark {
      assert x !in s.kids by { KidLinked(s, x); }
    }
    forall y ensures Held(s', y) == Held(s, y) && Placed(s', y) == Placed(s, y) {
    }
  }

  lemma DropValid(s: State, x: Item)
    requires Valid(s) && x in s.live && Held(s, x)
    ensures var s1 := WithHandles(s, x, s.handles[x] - 1);
            Valid(if Drained(s1, x) then WithReleased(s1, x, None) else s1)
  {
    hide ChainsOk;
    var s1 := WithHandles(s, x, s.handles[x] - 1);
    if s.handles[x] > 1 || Placed(s, x) {
      HandlesValid(s, x, s.handles[x] - 1, {});
    } else {
      HandlesValid(s, x, 0, {x});
      ReleaseValid(s1, x, None, {x});
    }
  }

  lemma MoveValid(s: State, p: Item, i: nat, x: Item)
    requires Valid(s) && CanReplace(s, p, i, x)
    ensures Valid(Dropped(WithReplaced(s, p, i, x), s.chains[p][i]))
  {
    var y, s1 := s.chains[p][i], WithReplaced(s, p, i, x);
    ReplaceValid(s, p, i, x);
    ChainFacts(s, p);
    assert y in s.chains[p];
    hide ChainsOk, Substituted, Rehooked, WithReleased;
    HandlesValid(s1, y, 0, {y});
    assert Drained(WithHandles(s1, y, 0), y);
    ReleaseValid(WithHandles(s1, y, 0), y, None, {y});
  }

  lemma EvictValid(s: State, x: Item)
    requires Valid(s) && x in s.inMM && Markable(s, Candidate(s, x))
    ensures var c := Candidate(s, x);
            Valid(WithReleased(Unlinked(s, c), c, Some(x))) && x in Family(s, c) && Drained(Unlinked(s, c), c)
  {
    var c := Candidate(s, x);
    CandidateFacts(s, x);
    hide ChainsOk, WithReleased, Candidate, Family;
    UnlinkValid(s, c, {c});
    ReleaseValid(Unlinked(s, c), c, Some(x), {c});
  }

  /** A queued child's parent owns it, so evicting the parent frees the child. */
  lemma CandidateFacts(s: State, x: Item)
    requires Valid(s) && x in s.inMM && Markable(s, Candidate(s, x))
    ensures var c := Candidate(s, x);
            x in Family(s, c) && c in s.live && c !in s.parentOf && c !in s.recycled && !Held(s, c)
  {
    if x in s.parentOf {
      KidLinked(s, x);
    }
    KidLinked(s, Candidate(s, x));
  }

  lemma AcquireValid(s: State, x: Item)
    requires Valid(s) && Enabled(s, Acquire(x))
    ensures Valid(WithHandles(s, x, s.handles[x] + 1))
  {
    hide ChainsOk;
    HandlesValid(s, x, s.handles[x] + 1, {});
  }

  lemma HeldUnlinkValid(s: State, x: Item)
    requires Valid(s) && Enabled(s, Unlink(x))
    ensures Valid(Unlinked(s, x))
  {
    hide ChainsOk;
    UnlinkValid(s, x, {});
  }

  lemma SucceededValid(s: State, p: Item, q: Item)
    requires Valid(s) && p in s.live && Held(s, p) && p !in s.parentOf && q in s.live && Held(s, q) && q !in s.parentOf
    ensures Valid(Succeeded(s, p, q))
  {
    hide ChainsOk, RefsOk;
    if p in s.accessible && p in s.inMM {
      InsertValid(s, q);
      UnlinkValid(Inserted(s, q), p, {});
    } else if p in s.accessible {
      UnlinkValid(s, p, {});
      assert s.inMM - {p} == s.inMM;
    }
  }

  lemma HeldTransferValid(s: State, p: Item, q: Item)
    requires Valid(s) && Enabled(s, Transfer(p, q))
    ensures Valid(Succeeded(WithTransferred(s, p, q), p, q))
  {
    hide ChainsOk, Transferred;
    TransferValid(s, p, q);
    assert WithTransferred(s, p, q).parentOf.Keys == s.parentOf.Keys;
    hide WithTransferred, Valid;
    TransferKeeps(s, p, q);
    SucceededValid(WithTransferred(s, p, q), p, q);
  }

  lemma TransferKeeps(s: State, p: Item, q: Item)
    requires p in s.chains && p in s.heads
    ensures var s' := WithTransferred(s, p, q);
            && s'.parentOf.Keys == s.parentOf.Keys && s'.live == s.live && s'.handles == s.handles && s'.refs == s.refs
            && s'.inMM == s.inMM && s'.accessible == s.accessible && s'.exclusive == s.exclusive
            && s'.recycled == s.recycled && s'.kids == s.kids && s'.chains == Transferred(s.chains, p, q)
  {
  }

  lemma NewFacts(s: State, p: Item, q: Item)
    requires Valid(s) && Enabled(s, MoveItem(p, q))
    ensures var s' := WithHandles(s.(live := s.live + {q}), q, 1);
            && Valid(s') && q in s'.live && Held(s', q) && q !in s'.parentOf && q !in s'.kids && q !in s'.recycled
            && q !in s'.exclusive && p in s'.live && p !in s'.parentOf && p !in s'.exclusive && p !in s'.recycled
            && q !in s'.chains && p in s'.refs && s'.refs[p] == 0 && s'.inMM == s.inMM && s'.accessible == s.accessible
            && p != q
  {
    hide Valid;
    MovableFacts(s, p, q);
    NewValid(s, q);
  }

  lemma TwinValid(s: State, p: Item, q: Item)
    requires Valid(s) && Enabled(s, MoveItem(p, q))
    ensures Valid(Twin(s, p, q)) && p != q
    ensures var s' := Twin(s, p, q);
            && q in s'.live && Held(s', q) && q !in s'.parentOf && q !in s'.kids && q !in s'.recycled
            && q !in s'.exclusive
            && p in s'.live && p !in s'.parentOf && p !in s'.exclusive && p !in s'.recycled && p !in s'.chains
            && p in s'.refs && s'.refs[p] == 0 && s'.inMM == s.inMM && s'.accessible == s.accessible
  {
    hide Valid, WithTransferred, Transferred;
    NewFacts(s, p, q);
    var s1 := WithHandles(s.(live := s.live + {q}), q, 1);
    if p in s.chains {
      TransferValid(s1, p, q);
      TransferKeeps(s1, p, q);
      NoLongerChained(s.chains, p, q);
    }
  }

  lemma NoLongerChained(c: ChainMap, p: Item, q: Item)
    requires p in c && p != q
    ensures p !in Transferred(c, p, q)
  {
  }

  lemma MovableFacts(s: State, p: Item, q: Item)
    requires Valid(s) && Enabled(s, MoveItem(p, q))
    ensures p in s.live && p != q && p !in s.recycled && q !in s.parentOf && q !in s.kids && q !in s.recycled
    ensures q !in s.exclusive && q !in s.chains && q !in s.accessible && q !in s.inMM
  {
    hide Shape, RefsOk;
    NotKid(s, q);
  }

  lemma MovedValid(s: State, p: Item, q: Item)
    requires Valid(s) && Enabled(s, MoveItem(p, q))
    ensures Valid(Moved(s, p, q))
  {
    hide ChainsOk, Twin, Family, WithReleased;
    TwinValid(s, p, q);
    var s1 := Twin(s, p, q);
    InsertValid(s1, q);
    var s2 := WithHandles(Inserted(s1, q), q, 0);
    HandlesValid(Inserted(s1, q), q, 0, {});
    UnlinkValid(s2, p, {p});
    OwnFamily(Unlinked(s2, p), p);
    ReleaseValid(Unlinked(s2, p), p, None, {p});
  }

  lemma OwnFamily(s: State, x: Item)
    ensures x in Family(s, x)
  {
  }

  lemma ApplyValid(s: State, op: Op)
    requires Valid(s) && Enabled(s, op)
    ensures Valid(Apply(s, op))
  {
    hide Valid, WithChild, WithoutHead, WithReplaced, WithTransferred, WithReleased, Held, Placed, CanAdd, CanReplace,
         Drained;
    hide Succeeded, Moved;
    match op
    case Allocate(x) => NewValid(s, x);
    case AllocateChild(x, p) => NewChildValid(s, x, p);
    case Reuse(x) => ReuseValid(s, x);
    case Insert(x) => InsertValid(s, x);
    case Unlink(x) => HeldUnlinkValid(s, x);
    case Acquire(x) => AcquireValid(s, x);
    case Drop(x) => DropValid(s, x);
    case Mark(x) => MarkValid(s, x, true);
    case Unmark(x) => MarkValid(s, x, false);
    case AddChild(p, x) => AddValid(s, p, x);
    case PopChild(p) => PopValid(s, p);
    case ReplaceChild(p, i, x) => ReplaceValid(s, p, i, x);
    case MoveChild(p, i, x) => MoveValid(s, p, i, x);
    case Transfer(p, q) => HeldTransferValid(s, p, q);
    case MoveItem(p, q) => MovedValid(s, p, q);
    case Evict(x) => EvictValid(s, x);
  }

  // ---------- every run ----------

  lemma {:induction false} RunValid(s: State, ops: seq<Op>)
    requires Valid(s) && Runs(s, ops)
    ensures Valid(Exec(s, ops))
    decreases |ops|
  {
    if ops != [] {
      ApplyValid(s, ops[0]);
      hide Valid, Apply, Enabled;
      RunValid(Apply(s, ops[0]), ops[1..]);
    }
  }

  ghost function Pick(c: ChainMap): (p: Item)
    requires exists p :: p in c
    ensures p in c
  {
    var p :| p in c;
    p
  }

  /** The lengths of all chains added up. */
  ghost function Lengths(c: ChainMap): nat
    decreases |c|
  {
    if exists p :: p in c then var p := Pick(c); |c[p]| + Lengths(c - {p}) else 0
  }

  lemma {:induction false} ChildrenCount(c: ChainMap, next: map<Item, Item>, parentOf: map<Item, Item>,
      heads: map<Item, Item>, kids: set<Item>)
    requires Shape(c, next, parentOf, heads) && KidsOk(c, parentOf, kids)
    ensures |kids| == Lengths(c)
    decreases |c|
  {
    if !exists p :: p in c {
      forall x ensures x !in kids {
        assert !Linked(c, parentOf, x);
      }
      assert kids == {};
    } else {
      var p := Pick(c);
      DiscardShape(c, next, parentOf, heads, p);
      DiscardKids(c, parentOf, kids, p);
      hide Shape, KidsOk;
      ChildrenCount(c - {p}, next - Members(c[p]), parentOf - Members(c[p]), heads - {p}, kids - Members(c[p]));
    }
  }

  /** The next hooks and the table spell one stack of distinct children per parent, disjoint from
      the others and keyed by its parent; an item has the chained flag if and only if its chain is
      non-empty; every linked child has exactly one reference, its parent's; and the counters are
      the number of chains and the sum of their lengths. */
  ghost predicate Stacks(s: State) {
    && Shape(s.chains, s.next, s.parentOf, s.heads)
    && (forall p :: p in s.hasChained <==> |ChainOf(s.chains, p)| > 0)
    && (forall p, q, x :: p != q && x in ChainOf(s.chains, p) ==> x !in ChainOf(s.chains, q))
    && (forall x :: x in s.kids <==> exists p :: x in ChainOf(s.chains, p))
    && (forall x :: x in s.kids ==> x in s.refs && s.refs[x] == 1 && x in s.inMM)
    && s.numParents == |s.chains| && s.numChildren == |s.kids| == Lengths(s.chains)
  }

  lemma ChildKey(s: State, p: Item, x: Item)
    requires ChainsOk(s)
    ensures x in ChainOf(s.chains, p) <==> x in s.kids && x in s.parentOf && s.parentOf[x] == p
  {
    KidLinked(s, x);
  }

  lemma ParentFlag(s: State, p: Item)
    requires ChainsOk(s)
    ensures p in s.hasChained <==> |ChainOf(s.chains, p)| > 0
  {
  }

  lemma KidFacts(s: State, x: Item)
    requires Valid(s) && x in s.kids
    ensures x in s.parentOf && x in s.refs && s.refs[x] == 1 && x in s.inMM
  {
    KidLinked(s, x);
    assert x in s.parentOf.Keys;
  }

  lemma ValidStacks(s: State)
    requires Valid(s)
    ensures Stacks(s)
  {
    hide Shape, KidsOk, RefsOk, SlotsOk, ChainOf, Lengths;
    ChildrenCount(s.chains, s.next, s.parentOf, s.heads, s.kids);
    forall p ensures p in s.hasChained <==> |ChainOf(s.chains, p)| > 0 {
      ParentFlag(s, p);
    }
    forall p, x ensures x in ChainOf(s.chains, p) <==> x in s.kids && x in s.parentOf && s.parentOf[x] == p {
      ChildKey(s, p, x);
    }
    forall x | x in s.kids ensures x in s.parentOf && x in s.refs && s.refs[x] == 1 && x in s.inMM {
      KidFacts(s, x);
    }
    forall x | x in s.kids ensures exists p :: x in ChainOf(s.chains, p) {
      assert x in ChainOf(s.chains, s.parentOf[x]);
    }
    forall p, q, x | p != q && x in ChainOf(s.chains, p) ensures x !in ChainOf(s.chains, q) {
      ChildKey(s, p, x);
      ChildKey(s, q, x);
    }
  }

  lemma StacksInEveryRun(ops: seq<Op>)
    requires Runs(EMPTY, ops)
    ensures Stacks(Exec(EMPTY, ops))
  {
    RunValid(EMPTY, ops);
    ValidStacks(Exec(EMPTY, ops));
  }

  /** After any run a slot is free if and only if it is not held, not linked and not given away. */
  lemma SlotsInEveryRun(ops: seq<Op>, x: Item)
    requires Runs(EMPTY, ops)
    ensures var s := Exec(EMPTY, ops);
            && (x !in s.live <==> !Held(s, x) && !Placed(s, x) && x !in s.recycled)
            && (x in s.recycled ==> !Held(s, x) && !Placed(s, x))
  {
    RunValid(EMPTY, ops);
  }

  lemma AddReady(s: State, p: Item, x: Item)
    requires Valid(s) && CanAdd(s, p, x)
    ensures x !in s.next && x !in s.inMM && x !in s.kids
    ensures (p in s.chains <==> p in s.heads) && (p in s.chains <==> p in s.hasChained)
    ensures p in s.chains ==> s.chains[p] != []
  {
    hide RefsOk, SlotsOk;
    assert x !in s.inMM by { ChildQueued(s, x); }
    assert !Linked(s.chains, s.parentOf, x);
  }

  lemma ChildQueued(s: State, x: Item)
    requires Valid(s) && x in s.parentOf
    ensures x in s.inMM <==> x in s.kids
  {
  }

  lemma PushPop(c: ChainMap, p: Item, x: Item)
    requires p in c ==> c[p] != []
    ensures var c' := Pushed(c, p, x);
            p in c' && c'[p] == [x] + ChainOf(c, p) && Popped(c', p) == c && (|c'[p]| == 1 <==> p !in c)
  {
    assert ([x] + ChainOf(c, p))[1..] == ChainOf(c, p);
  }

  /** Popping undoes adding, in every field: hooks, table, flags, counters, references and queues. */
  lemma PopUndoesAdd(s: State, p: Item, x: Item)
    requires Valid(s) && CanAdd(s, p, x)
    ensures var s' := WithChild(s, p, x);
            p in s'.chains && s'.chains[p] != [] && s'.chains[p][0] == x && WithoutHead(s', p) == s
  {
    hide Valid, Pushed, Popped, ChainOf, Held;
    AddReady(s, p, x);
    PushPop(s.chains, p, x);
    AddUndone(s.next, s.heads, p, x);
    var s' := WithChild(s, p, x);
    var t := WithoutHead(s', p);
    assert s.hasChained + {p} - {p} == s.hasChained || p in s.hasChained;
    assert p in s.hasChained ==> s.hasChained + {p} == s.hasChained;
    assert s.kids + {x} - {x} == s.kids && s.inMM + {x} - {x} == s.inMM && s.handles[x := 0][x := 1] == s.handles;
  }

  lemma AddUndone(next: map<Item, Item>, heads: map<Item, Item>, p: Item, x: Item)
    requires x !in next
    ensures p in heads ==> next[x := heads[p]] - {x} == next && heads[p := x][p := heads[p]] == heads
    ensures p !in heads ==> next - {x} == next && heads[p := x] - {p} == heads
  {
  }
}
