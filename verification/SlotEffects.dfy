/** What each operation of the allocator does, seen from outside: which slots are handed out, queued,
    found by key, marked or given away for reuse, who holds what, and which children each parent has. */
module SlotEffects {
  import opened Basics
  import opened Chains
  import opened Slots

  /** What is seen of a state, apart from the handles. */
  datatype View = View(
    live: set<Item>, queued: set<Item>, found: set<Item>, marked: set<Item>, recycled: set<Item>, chains: ChainMap)

  ghost function Seen(s: State): View {
    View(s.live, s.inMM, s.accessible, s.exclusive, s.recycled, s.chains)
  }

  ghost function HandlesOf(s: State, x: Item): nat {
    if x in s.handles then s.handles[x] else 0
  }

  /** Everybody still there has as many handles as before, except `x`, which has `n`. */
  ghost predicate OnlyHandles(s: State, s': State, x: Item, n: nat) {
    forall y :: y in s'.live ==> HandlesOf(s', y) == if y == x then n else HandlesOf(s, y)
  }

  ghost predicate SameHandles(s: State, s': State) {
    forall y :: y in s'.live ==> HandlesOf(s', y) == HandlesOf(s, y)
  }

  /** The children of a parent, most recent first. */
  function Children(c: ChainMap, p: Item): seq<Item> {
    if p in c then c[p] else []
  }

  function WithChildren(c: ChainMap, p: Item, t: seq<Item>): ChainMap {
    if t == [] then c - {p} else c[p := t]
  }

  /** `p` and its children go, except for the slots in `kept`. */
  ghost function Gone(v: View, p: Item, kept: set<Item>): View {
    var family := {p} + set y | y in Children(v.chains, p);
    View(v.live - family + kept, v.queued - family, v.found - {p}, v.marked, v.recycled + kept, v.chains - {p})
  }

  // ---------- one operation at a time ----------

  ghost predicate Effect(s: State, op: Op, s': State) {
    var v, v' := Seen(s), Seen(s');
    match op
    case Allocate(x) => v' == v.(live := v.live + {x}) && OnlyHandles(s, s', x, 1)
    case AllocateChild(x, p) =>
      v' == v.(live := v.live + {x}) && OnlyHandles(s, s', x, 1) && s'.parentOf == s.parentOf[x := p]
    case Reuse(x) => v' == v.(recycled := v.recycled - {x}) && OnlyHandles(s, s', x, 1)
    case Insert(x) => v' == v.(queued := v.queued + {x}, found := v.found + {x}) && SameHandles(s, s')
    case Unlink(x) => v' == v.(queued := v.queued - {x}, found := v.found - {x}) && SameHandles(s, s')
    case Acquire(x) => v' == v && OnlyHandles(s, s', x, HandlesOf(s, x) + 1)
    case Drop(x) =>
      && HandlesOf(s, x) > 0
      && v' == (if HandlesOf(s, x) == 1 && x !in v.queued && x !in v.found then Gone(v, x, {}) else v)
      && OnlyHandles(s, s', x, HandlesOf(s, x) - 1)
    case Mark(x) => v' == v.(marked := v.marked + {x}) && SameHandles(s, s')
    case Unmark(x) => v' == v.(marked := v.marked - {x}) && SameHandles(s, s')
    case AddChild(p, x) =>
      && v' == v.(queued := v.queued + {x}, chains := WithChildren(v.chains, p, [x] + Children(v.chains, p)))
      && OnlyHandles(s, s', x, 0)
    case PopChild(p) =>
      var t := Children(v.chains, p);
      && t != []
      && v' == v.(queued := v.queued - {t[0]}, chains := WithChildren(v.chains, p, t[1..]))
      && OnlyHandles(s, s', t[0], 1)
    case ReplaceChild(p, i, x) =>
      var t := Children(v.chains, p);
      && i < |t|
      && v' == v.(queued := v.queued - {t[i]} + {x}, chains := WithChildren(v.chains, p, t[..i] + [x] + t[i + 1..]))
      && HandlesOf(s', x) == 0 && HandlesOf(s', t[i]) == 1
      && (forall y :: y != x && y != t[i] ==> HandlesOf(s', y) == HandlesOf(s, y))
    case MoveChild(p, i, x) =>
      var t := Children(v.chains, p);
      && i < |t|
      && v' == v.(live := v.live - {t[i]}, queued := v.queued - {t[i]} + {x},
                  chains := WithChildren(v.chains, p, t[..i] + [x] + t[i + 1..]))
      && OnlyHandles(s, s', x, 0)
    case Transfer(p, q) =>
      var chains := WithChildren(v.chains - {p}, q, Children(v.chains, p));
      && v' == (if p !in v.found then v.(chains := chains)
                else if p !in v.queued then v.(chains := chains, found := v.found - {p})
                else v.(chains := chains, found := v.found - {p} + {q}, queued := v.queued - {p} + {q}))
      && SameHandles(s, s')
    case MoveItem(p, q) =>
      && v' == v.(live := v.live - {p} + {q}, queued := v.queued - {p} + {q}, found := v.found - {p} + {q},
                  chains := WithChildren(v.chains - {p}, q, Children(v.chains, p)))
      && OnlyHandles(s, s', q, 0)
    case Evict(x) =>
      exists p :: OwnerOf(s, x, p) && v' == Gone(v, p, {x}) && SameHandles(s, s')
  }

  /** The owner of a queued item: the parent whose child it is, or else the item itself. */
  ghost predicate OwnerOf(s: State, x: Item, p: Item) {
    if exists q :: q in s.chains && x in s.chains[q] then p in s.chains && x in s.chains[p] else p == x
  }

  lemma OwnerKnown(s: State, x: Item, p: Item)
    requires Valid(s) && x in s.inMM
    ensures OwnerOf(s, x, p) <==> p == Candidate(s, x)
  {
    if x in s.parentOf {
      ChildQueued(s, x);
      KidLinked(s, x);
    }
    forall q | q in s.chains && x in s.chains[q] ensures x in s.parentOf && s.parentOf[x] == q {
      ChainFacts(s, q);
    }
  }

  // ---------- every operation has its effect ----------

  lemma SimpleEffect(s: State, op: Op)
    requires Valid(s) && Enabled(s, op)
    requires op.Allocate? || op.AllocateChild? || op.Reuse? || op.Insert? || op.Unlink? || op.Acquire? || op.Mark?
             || op.Unmark?
    ensures Effect(s, op, Apply(s, op))
  {
    hide Valid, OwnerOf, Gone;
  }

  /** Releasing a drained item is seen as its family going. */
  lemma ReleasedView(s: State, x: Item, toRecycle: Option<Item>)
    requires x !in s.inMM && x !in s.accessible && (toRecycle.Some? ==> toRecycle.value in Family(s, x))
    ensures Seen(WithReleased(s, x, toRecycle)) ==
            Gone(Seen(s), x, if toRecycle.Some? then {toRecycle.value} else {})
    ensures WithReleased(s, x, toRecycle).handles == s.handles
  {
  }

  lemma HeldFacts(s: State, x: Item)
    requires Valid(s) && Held(s, x)
    ensures x in s.live && x in s.refs && x !in s.kids && s.refs[x] == s.handles[x] && x !in s.exclusive
  {
  }

  lemma DropEffect(s: State, x: Item)
    requires Valid(s) && Enabled(s, Drop(x))
    ensures Effect(s, Drop(x), Apply(s, Drop(x)))
  {
    hide Valid, OwnerOf, Gone, WithReleased;
    HeldFacts(s, x);
    var s1 := WithHandles(s, x, s.handles[x] - 1);
    if HandlesOf(s, x) == 1 && x !in s.inMM && x !in s.accessible {
      ReleasedView(s1, x, None);
    }
  }

  lemma AddEffect(s: State, p: Item, x: Item)
    requires Valid(s) && CanAdd(s, p, x)
    ensures Effect(s, AddChild(p, x), WithChild(s, p, x))
  {
    hide Valid, OwnerOf, Gone;
  }

  lemma PopEffect(s: State, p: Item)
    requires Valid(s) && p in s.chains && s.chains[p] != []
    ensures Effect(s, PopChild(p), WithoutHead(s, p))
  {
    hide Valid, OwnerOf, Gone;
  }

  lemma ReplaceEffect(s: State, p: Item, i: nat, x: Item)
    requires Valid(s) && CanReplace(s, p, i, x)
    ensures Effect(s, ReplaceChild(p, i, x), WithReplaced(s, p, i, x))
  {
    hide Valid, OwnerOf, Gone;
    var t := s.chains[p];
    ReplacedOut(s, p, i, x);
    assert t[i := x] == t[..i] + [x] + t[i + 1..];
  }

  lemma MoveChildEffect(s: State, p: Item, i: nat, x: Item)
    requires Valid(s) && CanReplace(s, p, i, x)
    ensures Effect(s, MoveChild(p, i, x), Apply(s, MoveChild(p, i, x)))
  {
    hide Valid, OwnerOf, Gone, WithReplaced, WithReleased;
    var y, s1 := s.chains[p][i], WithReplaced(s, p, i, x);
    ReplaceEffect(s, p, i, x);
    ReplacedOut(s, p, i, x);
    ReleasedView(WithHandles(s1, y, 0), y, None);
    GoneAlone(Seen(WithHandles(s1, y, 0)), y);
    var s' := Apply(s, MoveChild(p, i, x));
    forall z | z in s'.live ensures HandlesOf(s', z) == if z == x then 0 else HandlesOf(s, z) {
      assert z != y;
    }
  }

  lemma GoneAlone(v: View, y: Item)
    requires y !in v.chains && y !in v.queued && y !in v.found
    ensures Gone(v, y, {}) == v.(live := v.live - {y})
  {
    assert v.chains - {y} == v.chains;
    assert Children(v.chains, y) == [];
  }

  lemma ReplacedOut(s: State, p: Item, i: nat, x: Item)
    requires Valid(s) && CanReplace(s, p, i, x)
    ensures var y, s1 := s.chains[p][i], WithReplaced(s, p, i, x);
            y != x && y !in s1.chains && y !in s1.inMM && y !in s1.accessible && x in s1.live
  {
    ChainFacts(s, p);
    var y := s.chains[p][i];
    assert y in s.chains[p];
    hide Shape, KidsOk;
    assert y in s.parentOf.Keys && x in s.parentOf.Keys;
  }

  /** The chain of `p` handed to `q`. */
  lemma TransferredView(s: State, p: Item, q: Item)
    requires p in s.chains && s.chains[p] != [] && p in s.heads
    ensures var v, s' := Seen(s), WithTransferred(s, p, q);
            && Seen(s') == v.(chains := WithChildren(v.chains - {p}, q, Children(v.chains, p)))
            && s'.handles == s.handles
  {
  }

  lemma SucceededView(s: State, p: Item, q: Item)
    requires p != q
    ensures var v, s' := Seen(s), Succeeded(s, p, q);
            && Seen(s') == (if p !in v.found then v
                            else if p !in v.queued then v.(found := v.found - {p})
                            else v.(found := v.found - {p} + {q}, queued := v.queued - {p} + {q}))
            && s'.handles == s.handles
  {
    assert s.accessible + {q} - {p} == s.accessible - {p} + {q};
    assert s.inMM + {q} - {p} == s.inMM - {p} + {q};
  }

  lemma ChainNonEmpty(s: State, p: Item)
    requires Valid(s) && p in s.chains
    ensures s.chains[p] != []
  {
  }

  lemma TransferEffect(s: State, p: Item, q: Item)
    requires Valid(s) && Enabled(s, Transfer(p, q))
    ensures Effect(s, Transfer(p, q), Apply(s, Transfer(p, q)))
  {
    hide Valid, OwnerOf, Gone, WithTransferred, Succeeded, WithChildren;
    ChainNonEmpty(s, p);
    TransferredView(s, p, q);
    SucceededView(WithTransferred(s, p, q), p, q);
  }

  lemma TwinView(s: State, p: Item, q: Item)
    requires p != q && q !in s.chains && (p in s.chains ==> p in s.heads && s.chains[p] != [])
    ensures var v, s' := Seen(s), Twin(s, p, q);
            && Seen(s') == v.(live := v.live + {q},
                              chains := WithChildren(v.chains - {p}, q, Children(v.chains, p)))
            && s'.handles == s.handles[q := 1]
            && p !in s'.chains
  {
    hide WithTransferred;
    var s1 := WithHandles(s.(live := s.live + {q}), q, 1);
    if p in s.chains {
      TransferredView(s1, p, q);
    } else {
      assert s.chains - {p} == s.chains && s.chains - {q} == s.chains;
    }
  }

  lemma MoveItemEffect(s: State, p: Item, q: Item)
    requires Valid(s) && Enabled(s, MoveItem(p, q))
    ensures Effect(s, MoveItem(p, q), Apply(s, MoveItem(p, q)))
  {
    hide Valid, OwnerOf, Gone, WithReleased, WithChildren, Twin;
    MovableFacts(s, p, q);
    if p in s.chains {
      ChainNonEmpty(s, p);
    }
    TwinView(s, p, q);
    var s1 := Unlinked(WithHandles(Inserted(Twin(s, p, q), q), q, 0), p);
    ReleasedView(s1, p, None);
    GoneAlone(Seen(s1), p);
    assert s.live + {q} - {p} == s.live - {p} + {q};
    assert s.inMM + {q} - {p} == s.inMM - {p} + {q};
    assert s.accessible + {q} - {p} == s.accessible - {p} + {q};
  }

  lemma EvictEffect(s: State, x: Item)
    requires Valid(s) && Enabled(s, Evict(x))
    ensures Effect(s, Evict(x), Apply(s, Evict(x)))
  {
    hide Valid, WithReleased, OwnerOf, Candidate, Markable, Family;
    var c := Candidate(s, x);
    CandidateFacts(s, x);
    OwnerKnown(s, x, c);
    EvictedFamily(s, x, c);
    ReleasedView(Unlinked(s, c), c, Some(x));
    GoneUnlinked(s, c, {x});
  }

  lemma EvictedFamily(s: State, x: Item, c: Item)
    requires x in Family(s, c)
    ensures x in Family(Unlinked(s, c), c)
  {
  }

  lemma GoneUnlinked(s: State, c: Item, kept: set<Item>)
    ensures Gone(Seen(Unlinked(s, c)), c, kept) == Gone(Seen(s), c, kept)
  {
  }

  /** Every operation does exactly what is listed for it. */
  lemma StepEffect(s: State, op: Op)
    requires Valid(s) && Enabled(s, op)
    ensures Effect(s, op, Apply(s, op))
  {
    hide Valid, Effect, CanAdd, CanReplace;
    match op
    case Drop(x) => DropEffect(s, x);
    case AddChild(p, x) => AddEffect(s, p, x);
    case PopChild(p) => PopEffect(s, p);
    case ReplaceChild(p, i, x) => ReplaceEffect(s, p, i, x);
    case MoveChild(p, i, x) => MoveChildEffect(s, p, i, x);
    case Transfer(p, q) => TransferEffect(s, p, q);
    case MoveItem(p, q) => MoveItemEffect(s, p, q);
    case Evict(x) => EvictEffect(s, x);
    case _ => SimpleEffect(s, op);
  }

  // ---------- what can be evicted ----------

  /** Somebody holds it, evicts or moves it already, or took it off its queue. */
  ghost predicate Blocked(s: State, p: Item) {
    HandlesOf(s, p) > 0 || p in s.exclusive || p !in s.inMM
  }

  ghost predicate OwnerBlocked(s: State, x: Item) {
    forall p :: OwnerOf(s, x, p) ==> Blocked(s, p)
  }

  lemma NotAChild(s: State, x: Item)
    requires Valid(s) && x in s.inMM
    ensures Candidate(s, x) !in s.kids
  {
    if x in s.parentOf {
      ChildQueued(s, x);
      KidLinked(s, x);
      assert Candidate(s, x) in s.chains.Keys;
    }
    KidLinked(s, Candidate(s, x));
  }

  lemma UnheldCount(s: State, p: Item)
    requires Valid(s) && p !in s.kids && p in s.inMM
    ensures p in s.refs && (s.refs[p] == 0 <==> HandlesOf(s, p) == 0)
  {
  }

  /** A queued item can be evicted if and only if nothing blocks its owner. */
  lemma EvictableExactly(s: State, x: Item)
    requires Valid(s) && x in s.inMM
    ensures Enabled(s, Evict(x)) <==> Markable(s, Candidate(s, x))
    ensures Markable(s, Candidate(s, x)) <==> !OwnerBlocked(s, x)
  {
    hide Valid, OwnerOf;
    var p := Candidate(s, x);
    forall q ensures OwnerOf(s, x, q) <==> q == p {
      OwnerKnown(s, x, q);
    }
    assert OwnerOf(s, x, p);
    NotAChild(s, x);
    if p in s.inMM {
      UnheldCount(s, p);
    }
    hide Candidate;
    assert OwnerBlocked(s, x) <==> Blocked(s, p);
  }
}
